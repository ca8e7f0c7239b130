/** Runs that exist: a connection that loses a socket before it is told, a group
    write that is sent while disconnected, and the acknowledge that fits two
    pending requests after a start with one of them pending. */
module SessionRuns {
  import opened Bytes
  import opened Wrappers
  import opened KnxAddresses
  import opened CemiFrames
  import opened TunnelFrames
  import opened AsyncMessageStates
  import opened ClientRouting
  import opened TunnelingSession
  import opened SessionInvariants
  import opened SessionTheorems
  import opened SessionReturns

  /** The labels are possible one after the other from `s` on and end in `r`. */
  ghost predicate Leads(s: Session, labels: seq<Label>, r: Session)
    decreases |labels|
  {
    if labels == [] then r == s
    else Possible(s, labels[0]) && Leads(Next(s, labels[0]), labels[1..], r)
  }

  lemma LeadsOne(s: Session, a: Label)
    requires Possible(s, a)
    ensures Leads(s, [a], Next(s, a))
  {
    hide Possible, Next;
    assert Leads(Next(s, a), [], Next(s, a));
    assert [a][1..] == [];
  }

  lemma {:induction false} LeadsOn(s: Session, first: seq<Label>, t: Session, more: seq<Label>, r: Session)
    requires Leads(s, first, t) && Leads(t, more, r)
    ensures Leads(s, first + more, r)
    decreases |first|
  {
    hide Possible, Next;
    if first == [] {
      assert first + more == more;
    } else {
      LeadsOn(Next(s, first[0]), first[1..], t, more, r);
      assert (first + more)[1..] == first[1..] + more;
    }
  }

  lemma {:induction false} LeadsGood(s: Session, labels: seq<Label>, r: Session)
    requires Good(s) && Leads(s, labels, r)
    ensures Good(r)
    decreases |labels|
  {
    hide Good, Possible, Next;
    if labels != [] {
      NextKeepsInv(s, labels[0]);
      LeadsGood(Next(s, labels[0]), labels[1..], r);
    }
  }

  /** A run goes on with whatever is possible. */
  lemma {:induction false} HistoryOn(states: seq<Session>, labels: seq<Label>, more: seq<Label>, r: Session)
    returns (after: seq<Session>)
    requires IsHistory(states, labels) && Leads(states[|labels|], more, r)
    ensures IsHistory(states + after, labels + more)
    ensures |after| == |more| && (states + after)[|labels| + |more|] == r
    decreases |more|
  {
    hide Possible, Next;
    if more == [] {
      after := [];
      assert states + after == states && labels + more == labels;
    } else {
      var s := states[|labels|];
      var t := Next(s, more[0]);
      var states', labels' := states + [t], labels + [more[0]];
      var rest := HistoryOn(states', labels', more[1..], r);
      after := [t] + rest;
      assert states + after == states' + rest;
      assert labels + more == labels' + more[1..];
    }
  }

  lemma InitialHistory()
    ensures IsHistory([INITIAL], [])
  {
  }

  lemma LeadsNext(s: Session, first: seq<Label>, t: Session, a: Label)
    requires Leads(s, first, t) && Possible(t, a)
    ensures Leads(s, first + [a], Next(t, a))
  {
    hide Leads, Possible, Next;
    LeadsOne(t, a);
    LeadsOn(s, first, t, [a], Next(t, a));
  }

  // ------------------------------------------------------------ single steps

  lemma SendDoneStep(s: Session, i: nat)
    requires i < |s.calls| && s.loops[i].pc.Transmitting?
    ensures Possible(s, FrameSendDone(i)) && Next(s, FrameSendDone(i)) == FrameSent(s, i)
  {
    hide FrameSent;
  }

  lemma ResumeStep(s: Session, i: nat)
    requires i < |s.calls| && s.loops[i].pc.Queued?
    ensures Possible(s, FrameResume(i)) && Next(s, FrameResume(i)) == FrameResumed(s, i)
  {
    hide FrameResumed;
  }

  lemma ReceiveStep(s: Session, r: Response)
    requires Parsable(r)
    ensures Possible(s, Receive(r)) && Next(s, Receive(r)) == Received(s, r)
  {
    hide Received, Parsable;
  }

  lemma ReadErrorStep(s: Session)
    ensures Possible(s, ReadError(DataSocket)) && Next(s, ReadError(DataSocket)) == s.(dataOpen := false)
  {
  }

  lemma StartStep(s: Session)
    requires MayStart(s)
    ensures Possible(s, DoStart) && Next(s, DoStart) == Start(s)
  {
    hide Start, MayStart;
  }

  lemma SubmitStep(s: Session, c: Cemi)
    requires c.destination.Group? && KeyOf(c) !in s.requests
    ensures Possible(s, DoSubmit(c)) && Next(s, DoSubmit(c)) == Submit(s, c)
  {
    hide Submit, KeyOf;
  }

  lemma DisconnectStep(s: Session, channel: byte)
    ensures Possible(s, ReceiveDisconnect(channel))
    ensures Next(s, ReceiveDisconnect(channel)) == ReceivedDisconnect(s, channel)
  {
    hide ReceivedDisconnect;
  }

  lemma JobExpireStep(s: Session, j: nat)
    requires j < |s.jobs| && s.jobs[j].pc.Waiting?
    ensures Possible(s, JobExpire(j)) && Next(s, JobExpire(j)) == JobStep(s, j, TimerDone(s.jobs[j], Expired))
  {
    hide JobStep;
  }

  lemma JobResumeStep(s: Session, j: nat)
    requires j < |s.jobs| && s.jobs[j].pc.Queued?
    ensures Possible(s, JobResume(j)) && Next(s, JobResume(j)) == JobResumed(s, j)
  {
    hide JobResumed;
  }

  // ------------------------------------------------------------ connecting

  /** `start` and a connect response, with or without a read error in between. */
  function Connecting(n: nat, channel: byte, address: KnxAddress, broken: bool): seq<Label> {
    [DoStart, FrameSendDone(n)] + (if broken then [ReadError(DataSocket)] else [])
    + [Receive(ConnectResponse(channel, 0, address))] + [FrameResume(n)]
  }

  function AtPc(pc: Pc): Loop<Response> {
    Loop(MsgState.Sending, 1, pc, None)
  }

  lemma StartFields(s: Session)
    ensures var r := Start(s); var n := |s.calls|;
      && r.calls == s.calls + [Call(Connect, ByStart, s.epoch + 1, 0)]
      && r.loops == s.loops + [AtPc(Transmitting)]
      && r.sendItems == s.sendItems + [n] && r.sequence == 0 && r.sends == 0
      && r.controlOpen && r.dataOpen
      && r.channelId == s.channelId && r.cemis == s.cemis && r.jobs == s.jobs && r.requests == s.requests
      && r.notices == s.notices && r.phases == s.phases + [Running]
  {
    hide Linked;
  }

  lemma SentWaits(s: Session, n: nat)
    requires n < |s.calls| && s.loops[n] == AtPc(Transmitting)
    ensures FrameSent(s, n) == WithLoop(s, n, AtPc(Waiting))
  {
    hide ReturnFrame, Linked;
  }

  /** `start` and its request handed over. */
  lemma StartSent(s: Session) returns (r: Session)
    requires MayStart(s)
    ensures Leads(s, [DoStart, FrameSendDone(|s.calls|)], r)
    ensures r == WithLoop(Start(s), |s.calls|, AtPc(Waiting))
  {
    hide Leads, Start, Possible, Next, MayStart;
    var n := |s.calls|;
    var t := Start(s);
    StartStep(s);
    StartFields(s);
    LeadsOne(s, DoStart);
    SendDoneStep(t, n);
    SentWaits(t, n);
    r := WithLoop(t, n, AtPc(Waiting));
    LeadsNext(s, [DoStart], t, FrameSendDone(n));
    assert [DoStart] + [FrameSendDone(n)] == [DoStart, FrameSendDone(n)];
  }

  lemma {:induction false} LastMatches(calls: seq<Call>, items: seq<nat>, n: nat, r: Response)
    requires Within(items, |calls|) && n < |calls| && Within(items + [n], |calls|)
    requires Matches(calls[n].request, r)
    requires forall a :: 0 <= a < |items| ==> !Matches(calls[items[a]].request, r)
    ensures FirstMatch(calls, items + [n], r) == Some(n)
  {
    hide Matches;
    if items != [] {
      assert (items + [n])[1..] == items[1..] + [n];
      LastMatches(calls, items[1..], n, r);
    }
  }

  lemma NoConnectPending(s: Session)
    requires Good(s) && MayStart(s)
    ensures forall a :: 0 <= a < |s.sendItems| ==> !s.calls[s.sendItems[a]].request.Connect?
  {
    forall a | 0 <= a < |s.sendItems|
      ensures !s.calls[s.sendItems[a]].request.Connect?
    {
      assert CallOk(s.calls[s.sendItems[a]]);
    }
  }

  /** The started frame, after any read error. */
  function StartedWaiting(s: Session, broken: bool): (r: Session) {
    var t := WithLoop(Start(s), |s.calls|, AtPc(Waiting));
    if broken then t.(dataOpen := false) else t
  }

  lemma StartWaits(s: Session, broken: bool)
    requires MayStart(s)
    ensures Leads(s, [DoStart, FrameSendDone(|s.calls|)] + (if broken then [ReadError(DataSocket)] else []),
      StartedWaiting(s, broken))
  {
    hide Leads, Start, Possible, Next, MayStart;
    var first := [DoStart, FrameSendDone(|s.calls|)];
    var t := StartSent(s);
    if broken {
      ReadErrorStep(t);
      LeadsNext(s, first, t, ReadError(DataSocket));
    } else {
      assert first + [] == first;
    }
  }

  function Answered(r: Response): Loop<Response> {
    Loop(Okay, 1, Queued(Aborted), Some(r))
  }

  lemma WaitingFields(s: Session, broken: bool)
    ensures var r := StartedWaiting(s, broken); var n := |s.calls|;
      && r.calls == s.calls + [Call(Connect, ByStart, s.epoch + 1, 0)]
      && |r.loops| == n + 1 && r.loops[n] == AtPc(Waiting)
      && r.sendItems == s.sendItems + [n] && r.sequence == 0 && r.sends == 0
      && r.controlOpen && r.dataOpen == !broken
      && r.channelId == s.channelId && r.cemis == s.cemis && r.jobs == s.jobs && r.requests == s.requests
      && r.notices == s.notices && r.phases == s.phases + [Running]
  {
    assert |s.loops| == |s.calls|;
    StartFields(s);
    hide Start, Linked;
  }

  lemma AnswerArrives(s: Session, n: nat, items: seq<nat>, r: Response)
    requires n < |s.calls| && s.sendItems == items + [n] && s.calls[n].request.Connect? && r.ConnectResponse?
    requires Within(items, |s.calls|) && s.loops[n] == AtPc(Waiting)
    requires forall a :: 0 <= a < |items| ==> !s.calls[items[a]].request.Connect?
    ensures Received(s, r) == WithLoop(s, n, Answered(r))
  {
    LastMatches(s.calls, items, n, r);
    hide FirstMatch, Linked;
  }

  lemma AnswerResumes(s: Session, n: nat, r: Response)
    requires n < |s.calls| && s.calls[n].caller.ByStart? && s.loops[n] == Answered(r) && r.ConnectResponse?
    ensures var t := WithLoop(s, n, Loop(Okay, 1, Returned, Some(r)));
      FrameResumed(s, n) == Finish(t, n).(
        channelId := r.channel, knxAddress := r.address, notices := s.notices + [OnConnect], linkUp := true)
  {
    var l := Loop(Okay, 1, Returned, Some(r));
    var t := WithLoop(s, n, l);
    assert AfterWait(s.loops[n], Aborted) == l;
    ReturnOfStart(t, n);
    StartedMeaning(Finish(t, n), Some(r));
    hide ReturnFrame, Finish, Started, Close, Linked;
  }

  lemma FinishedFields(s: Session, n: nat, items: seq<nat>, l: Loop<Response>)
    requires n < |s.calls| && s.sendItems == items + [n]
    ensures var r := Finish(WithLoop(s, n, l), n);
      && r.calls == s.calls && |r.phases| == |s.phases| && r.phases[n].Done?
      && (forall x :: 0 <= x < |s.phases| && x != n ==> r.phases[x] == s.phases[x])
      && (forall i <- items :: i != n ==> i in r.sendItems)
      && (forall i <- r.sendItems :: i in items)
      && r.sequence == s.sequence && r.sends == s.sends && r.controlOpen == s.controlOpen && r.dataOpen == s.dataOpen
      && r.cemis == s.cemis && r.jobs == s.jobs && r.requests == s.requests
  {
    assert |s.phases| == |s.calls|;
    hide Linked;
    forall i <- items | i != n
      ensures i in Without(items + [n], n)
    {
      assert i in items + [n];
    }
  }

  /** The answer arrives and `start` returns. */
  lemma AnswerConnects(s: Session, first: seq<Label>, t: Session, n: nat, items: seq<nat>, answer: Response)
    returns (r: Session)
    requires Leads(s, first, t) && n < |t.calls| && t.sendItems == items + [n] && Within(items, |t.calls|)
    requires t.calls[n].request.Connect? && t.calls[n].caller.ByStart? && t.loops[n] == AtPc(Waiting)
    requires forall a :: 0 <= a < |items| ==> !t.calls[items[a]].request.Connect?
    requires answer.ConnectResponse? && Parsable(answer)
    ensures Leads(s, first + [Receive(answer)] + [FrameResume(n)], r)
    ensures r == Finish(WithLoop(t, n, Loop(Okay, 1, Returned, Some(answer))), n).(
      channelId := answer.channel, knxAddress := answer.address, notices := t.notices + [OnConnect], linkUp := true)
  {
    assert |t.loops| == |t.calls|;
    hide Leads, Possible, Next, Received, FrameResumed, Finish, Parsable, Linked;
    AnswerArrives(t, n, items, answer);
    ReceiveStep(t, answer);
    LeadsNext(s, first, t, Receive(answer));
    var u := WithLoop(t, n, Answered(answer));
    AnswerResumes(u, n, answer);
    ResumeStep(u, n);
    LeadsNext(s, first + [Receive(answer)], u, FrameResume(n));
    r := FrameResumed(u, n);
    var done := Loop(Okay, 1, Returned, Some(answer));
    assert WithLoop(u, n, done) == WithLoop(t, n, done);
  }

  /** Connected on the given channel, with what was pending still pending. */
  ghost predicate Connected(s: Session, r: Session, channel: byte, broken: bool) {
    && r.calls == s.calls + [Call(Connect, ByStart, s.epoch + 1, 0)] && r.channelId == channel
    && r.linkUp && r.notices == s.notices + [OnConnect] && r.controlOpen && r.dataOpen == !broken
    && r.sequence == 0 && r.sends == 0
    && r.cemis == s.cemis && r.jobs == s.jobs && r.requests == s.requests
    && (forall i <- s.sendItems :: i in r.sendItems)
    && (forall i <- r.sendItems :: i in s.sendItems)
  }

  lemma FinishConnects(s: Session, broken: bool, l: Loop<Response>, channel: byte, address: KnxAddress, r: Session)
    requires |s.calls| < |StartedWaiting(s, broken).calls|
    requires r == Finish(WithLoop(StartedWaiting(s, broken), |s.calls|, l), |s.calls|).(
      channelId := channel, knxAddress := address,
      notices := StartedWaiting(s, broken).notices + [OnConnect], linkUp := true)
    ensures Connected(s, r, channel, broken)
  {
    assert forall i <- s.sendItems :: i != |s.calls|;
    var t := StartedWaiting(s, broken);
    WaitingFields(s, broken);
    FinishedFields(t, |s.calls|, s.sendItems, l);
    hide StartedWaiting, Finish, Linked;
  }

  /** From any reachable state in which `start` may be called, a gateway that
      answers connects it on whatever channel it likes; a read error before the
      answer leaves the data socket closed under the connect notice. */
  lemma StartConnects(s: Session, channel: byte, address: KnxAddress, broken: bool) returns (r: Session)
    requires Good(s) && MayStart(s) && IndividualInRange(address)
    ensures Leads(s, Connecting(|s.calls|, channel, address, broken), r)
    ensures Connected(s, r, channel, broken)
  {
    assert Within(s.sendItems, |s.calls|);
    var n := |s.calls|;
    var answer := ConnectResponse(channel, 0, address);
    NoConnectPending(s);
    hide Leads, Good, MayStart, StartedWaiting, Finish, IndividualInRange, Linked, Connected;
    StartWaits(s, broken);
    var t := StartedWaiting(s, broken);
    WaitingFields(s, broken);
    var first := [DoStart, FrameSendDone(n)] + if broken then [ReadError(DataSocket)] else [];
    r := AnswerConnects(s, first, t, n, s.sendItems, answer);
    FinishConnects(s, broken, Loop(Okay, 1, Returned, Some(answer)), channel, address, r);
  }

  lemma Broken(n: nat, channel: byte, address: KnxAddress)
    ensures Connecting(n, channel, address, true) ==
      [DoStart, FrameSendDone(n), ReadError(DataSocket), Receive(ConnectResponse(channel, 0, address)), FrameResume(n)]
  {
  }

  lemma FromInitial(labels: seq<Label>, r: Session) returns (states: seq<Session>)
    requires Leads(INITIAL, labels, r)
    ensures IsHistory(states, labels) && |states| == |labels| + 1 && states[|labels|] == r
  {
    hide Leads, IsHistory;
    InitialHistory();
    var after := HistoryOn([INITIAL], [], labels, r);
    assert [] + labels == labels;
    states := [INITIAL] + after;
  }

  lemma InitialMayStart()
    ensures Good(INITIAL) && MayStart(INITIAL)
  {
    InitialIsGood();
    hide Good;
  }

  /** A run in which every listener is told a connection while the data socket is
      closed: a read error comes between the connect request and its answer. */
  lemma ConnectWithoutDataSocket(address: KnxAddress) returns (states: seq<Session>)
    requires IndividualInRange(address)
    ensures IsHistory(states,
      [DoStart, FrameSendDone(0), ReadError(DataSocket), Receive(ConnectResponse(7, 0, address)), FrameResume(0)])
    ensures |states| == 6 && states[5].notices == [OnConnect] && states[5].linkUp
    ensures states[5].controlOpen && !states[5].dataOpen
  {
    hide Leads, Good, IsHistory, MayStart, IndividualInRange, Connecting;
    InitialMayStart();
    var r := StartConnects(INITIAL, 7, address, true);
    Broken(0, 7, address);
    states := FromInitial(Connecting(0, 7, address, true), r);
  }

  // ------------------------------------------------------------ a group write sent while disconnected

  function JobAt(attempts: uint32, pc: Pc): Loop<Cemi> {
    Loop(MsgState.Sending, attempts, pc, None)
  }

  /** The tunnelling request that a job opens. */
  function Opens(s: Session, j: nat, c: Cemi): Call {
    Call(Tunnel(TunnelRequest(ConnectionHeader(s.channelId, s.sequence, 0), c)), BySend(j), s.epoch, s.sends)
  }

  lemma SubmitFields(s: Session, c: Cemi)
    ensures var r := Submit(s, c); var n := |s.calls|; var j := |s.jobs|;
      && r.calls == s.calls + [Opens(s, j, c)]
      && |r.phases| == |r.loops| == n + 1 && |r.jobs| == |r.cemis| == j + 1
      && (forall x :: 0 <= x < n ==> r.phases[x] == s.phases[x])
      && r.loops[n] == AtPc(Transmitting) && r.jobs[j] == JobAt(1, Transmitting) && r.cemis[j] == c
      && r.sendItems == s.sendItems + [n]
      && r.sequence == Successor(s.sequence) && r.sends == s.sends + 1
      && r.channelId == s.channelId && r.linkUp == s.linkUp
      && r.requests == s.requests[KeyOf(c) := j]
  {
    assert |s.phases| == |s.loops| == |s.calls| && |s.jobs| == |s.cemis|;
    hide Successor, KeyOf, Linked;
  }

  /** The acknowledge of a request that was sent with `header`. */
  function AckOf(s: Session): Response {
    TunnelAck(ConnectionHeader(s.channelId, s.sequence, 0))
  }

  lemma AckArrives(s: Session, n: nat, ack: Response)
    requires n < |s.calls| && s.sendItems == [n] && Matches(s.calls[n].request, ack) && s.loops[n] == AtPc(Waiting)
    ensures Received(s, ack) == WithLoop(s, n, Answered(ack))
  {
    LastMatches(s.calls, [], n, ack);
    assert [] + [n] == [n];
    hide FirstMatch, Linked, Matches;
  }

  lemma ReturnOfSend(s: Session, n: nat, j: nat)
    requires n < |s.calls| && s.calls[n].caller == BySend(j) && j < |s.jobs| && !AckRefused(s.loops[n].response)
    ensures ReturnFrame(s, n) == SendReturned(Finish(s, n), j)
  {
    hide Finish, SendReturned, Close, Closed, Started, CloseDone, Linked;
  }

  lemma AckResumes(s: Session, n: nat, ack: Response)
    requires n < |s.calls| && s.calls[n].caller.BySend? && s.calls[n].caller.job < |s.jobs|
    requires s.loops[n] == Answered(ack) && ack.TunnelAck? && ack.header.status == 0
    ensures FrameResumed(s, n) ==
      SendReturned(Finish(WithLoop(s, n, Loop(Okay, 1, Returned, Some(ack))), n), s.calls[n].caller.job)
  {
    var l := Loop(Okay, 1, Returned, Some(ack));
    assert AfterWait(s.loops[n], Aborted) == l;
    ReturnOfSend(WithLoop(s, n, l), n, s.calls[n].caller.job);
    hide ReturnFrame, Finish, SendReturned, Close, Linked;
  }

  /** The job whose request was acknowledged waits for its confirmation. */
  lemma AcknowledgedFields(s: Session, n: nat, j: nat, l: Loop<Response>)
    requires n < |s.calls| && j < |s.jobs| && s.sendItems == [n] && s.jobs[j] == JobAt(1, Transmitting)
    ensures var r := SendReturned(Finish(WithLoop(s, n, l), n), j);
      && r.calls == s.calls && |r.phases| == |s.phases| && r.phases[n].Done?
      && (forall x :: 0 <= x < |s.phases| && x != n ==> r.phases[x] == s.phases[x])
      && r.jobs == s.jobs[j := JobAt(1, Waiting)] && r.cemis == s.cemis && r.requests == s.requests
      && r.sendItems == [] && r.channelId == s.channelId
  {
    assert |s.phases| == |s.calls|;
    assert [n][1..] == [];
    assert Without([n], n) == [];
    hide Linked, KeyOf;
  }

  /** With nothing pending a disconnect request cancels nothing. */
  lemma DisconnectFields(s: Session)
    requires s.sendItems == []
    ensures var r := ReceivedDisconnect(s, s.channelId);
      && r.calls == s.calls && r.phases == s.phases && r.jobs == s.jobs && r.cemis == s.cemis
      && r.requests == s.requests && r.sendItems == [] && r.channelId == s.channelId
      && r.sequence == 0 && r.sends == 0 && !r.linkUp
  {
    hide Linked, CancelAll;
  }

  lemma RetryFields(s: Session, j: nat)
    requires j < |s.jobs| && s.jobs[j] == JobAt(1, Queued(Expired))
    ensures var r := JobResumed(s, j); var n := |s.calls|;
      && r.calls == s.calls + [Opens(s, j, s.cemis[j])]
      && |r.phases| == n + 1 && (forall x :: 0 <= x < n ==> r.phases[x] == s.phases[x])
      && r.sendItems == s.sendItems + [n] && r.requests == s.requests
      && r.linkUp == s.linkUp && r.channelId == s.channelId
  {
    assert |s.cemis| == |s.jobs| && |s.phases| == |s.calls|;
    assert AfterWait(s.jobs[j], Expired) == JobAt(0, Transmitting);
    hide Successor, KeyOf, Linked;
  }

  /** A write that is acknowledged, a disconnect request from the gateway, and the
      second attempt of the write when its confirmation does not come. */
  function Retrying(s: Session, c: Cemi): seq<Label> {
    [DoSubmit(c)] + [FrameSendDone(|s.calls|)] + [Receive(AckOf(s))] + [FrameResume(|s.calls|)]
    + [ReceiveDisconnect(s.channelId)] + [JobExpire(|s.jobs|)] + [JobResume(|s.jobs|)]
  }

  lemma NoStartWhileUp(s: Session)
    requires Good(s) && s.linkUp
    ensures forall i :: 0 <= i < |s.calls| && s.calls[i].caller.ByStart? ==> s.phases[i].Done?
  {
  }

  lemma SubmitMatches(s: Session, c: Cemi)
    ensures Matches(Opens(s, |s.jobs|, c).request, AckOf(s))
  {
  }

  /** The acknowledged write. */
  lemma WriteAcknowledged(s: Session, c: Cemi) returns (r: Session)
    requires s.sendItems == [] && c.destination.Group? && KeyOf(c) !in s.requests
    ensures Leads(s, [DoSubmit(c)] + [FrameSendDone(|s.calls|)] + [Receive(AckOf(s))] + [FrameResume(|s.calls|)], r)
    ensures var n := |s.calls|; var j := |s.jobs|;
      && r.calls == s.calls + [Opens(s, j, c)] && |r.phases| == n + 1
      && (forall x :: 0 <= x < n ==> r.phases[x] == s.phases[x])
      && |r.jobs| == |r.cemis| == j + 1 && r.jobs[j] == JobAt(1, Waiting) && r.cemis[j] == c
      && r.requests == s.requests[KeyOf(c) := j] && r.sendItems == [] && r.channelId == s.channelId
  {
    var n, j, ack := |s.calls|, |s.jobs|, AckOf(s);
    assert |s.phases| == n;
    SubmitMatches(s, c);
    hide Leads, Possible, Next, Submit, FrameSent, FrameResumed, Received, SendReturned, Finish, KeyOf, Successor,
      Linked, Matches;
    SubmitStep(s, c);
    SubmitFields(s, c);
    LeadsOne(s, DoSubmit(c));
    var s1 := Submit(s, c);
    assert s1.sendItems == [n];
    SendDoneStep(s1, n);
    SentWaits(s1, n);
    LeadsNext(s, [DoSubmit(c)], s1, FrameSendDone(n));
    var s2 := WithLoop(s1, n, AtPc(Waiting));
    ReceiveStep(s2, ack);
    AckArrives(s2, n, ack);
    LeadsNext(s, [DoSubmit(c)] + [FrameSendDone(n)], s2, Receive(ack));
    var s3 := WithLoop(s2, n, Answered(ack));
    ResumeStep(s3, n);
    AckResumes(s3, n, ack);
    AcknowledgedFields(s3, n, j, Loop(Okay, 1, Returned, Some(ack)));
    LeadsNext(s, [DoSubmit(c)] + [FrameSendDone(n)] + [Receive(ack)], s3, FrameResume(n));
    r := FrameResumed(s3, n);
  }

  lemma ExpiredFields(s: Session, j: nat)
    requires j < |s.jobs| && s.jobs[j] == JobAt(1, Waiting)
    ensures var r := JobStep(s, j, TimerDone(s.jobs[j], Expired));
      && r.calls == s.calls && r.phases == s.phases && r.cemis == s.cemis && r.sendItems == s.sendItems
      && r.requests == s.requests
      && |r.jobs| == |s.jobs| && r.jobs[j] == JobAt(1, Queued(Expired))
      && r.sequence == s.sequence && r.sends == s.sends && r.linkUp == s.linkUp && r.channelId == s.channelId
  {
    hide KeyOf, Linked;
  }

  /** The gateway disconnects while the job waits. */
  lemma RetryAfterDisconnect(s: Session, t: Session, first: seq<Label>, n: nat, j: nat, c: Cemi) returns (r: Session)
    requires Leads(s, first, t) && |t.calls| == |t.phases| == n && |t.jobs| == |t.cemis| == j + 1
    requires t.jobs[j] == JobAt(1, Waiting) && t.cemis[j] == c && t.sendItems == []
    requires forall i :: 0 <= i < n && t.calls[i].caller.ByStart? ==> t.phases[i].Done?
    ensures Leads(s, first + [ReceiveDisconnect(t.channelId)] + [JobExpire(j)] + [JobResume(j)], r)
    ensures !r.linkUp && MayStart(r) && r.requests == t.requests
    ensures r.sendItems == [n] && |r.calls| == n + 1
    ensures r.calls[n].request == Tunnel(TunnelRequest(ConnectionHeader(t.channelId, 0, 0), c))
  {
    hide Leads, Possible, Next, ReceivedDisconnect, JobStep, JobResumed, Linked;
    DisconnectStep(t, t.channelId);
    DisconnectFields(t);
    LeadsNext(s, first, t, ReceiveDisconnect(t.channelId));
    var s3 := ReceivedDisconnect(t, t.channelId);
    JobExpireStep(s3, j);
    ExpiredFields(s3, j);
    LeadsNext(s, first + [ReceiveDisconnect(t.channelId)], s3, JobExpire(j));
    var s4 := JobStep(s3, j, TimerDone(s3.jobs[j], Expired));
    JobResumeStep(s4, j);
    RetryFields(s4, j);
    LeadsNext(s, first + [ReceiveDisconnect(t.channelId)] + [JobExpire(j)], s4, JobResume(j));
    r := JobResumed(s4, j);
    assert |r.phases| == |r.calls|;
  }

  /** From every reachable connected state with nothing pending, a group write whose
      connection the gateway ends before the confirmation sends its second request
      while no connection stands, and that request is pending when `start` may be
      called again.  No pending item is destroyed on the way. */
  lemma WriteGoesOutDisconnected(s: Session, c: Cemi) returns (r: Session)
    requires Good(s) && s.linkUp && s.sendItems == [] && c.destination.Group? && KeyOf(c) !in s.requests
    ensures Leads(s, Retrying(s, c), r)
    ensures !r.linkUp && MayStart(r)
    ensures r.sendItems == [|s.calls| + 1] && |r.calls| == |s.calls| + 2
    ensures r.calls[|s.calls| + 1].request == Tunnel(TunnelRequest(ConnectionHeader(s.channelId, 0, 0), c))
    ensures r.requests == s.requests[KeyOf(c) := |s.jobs|]
  {
    var n, j := |s.calls|, |s.jobs|;
    NoStartWhileUp(s);
    assert |s.phases| == n;
    hide Leads, Good, KeyOf, Linked, MayStart, AckOf;
    var t := WriteAcknowledged(s, c);
    var first := [DoSubmit(c)] + [FrameSendDone(n)] + [Receive(AckOf(s))] + [FrameResume(n)];
    r := RetryAfterDisconnect(s, t, first, n + 1, j, c);
  }

  // ------------------------------------------------------------ two pending requests with one header

  function Submits(cs: seq<Cemi>): seq<Label> {
    seq(|cs|, a requires 0 <= a < |cs| => DoSubmit(cs[a]))
  }

  /** The caller may send all of these one after the other. */
  ghost predicate Submittable(s: Session, cs: seq<Cemi>) {
    && (forall a :: 0 <= a < |cs| ==> cs[a].destination.Group? && KeyOf(cs[a]) !in s.requests)
    && (forall a, b :: 0 <= a < b < |cs| ==> KeyOf(cs[a]) != KeyOf(cs[b]))
  }

  /** What sending `cs` leaves of what was there. */
  ghost predicate Extends(s: Session, r: Session, cs: seq<Cemi>) {
    && s.calls <= r.calls && |r.calls| == |s.calls| + |cs| && s.sendItems <= r.sendItems
    && r.channelId == s.channelId && r.linkUp == s.linkUp && r.sends == s.sends + |cs|
    && (r.sequence == Cast8(r.sends))
    && (forall key <- r.requests :: key in s.requests || exists a :: 0 <= a < |cs| && key == KeyOf(cs[a]))
  }

  /** The request of the last of the writes `cs`. */
  ghost predicate LastSent(s: Session, r: Session, cs: seq<Cemi>) {
    var n := |s.calls| + |cs| - 1;
    && 0 <= n < |r.calls| && cs != []
    && r.calls[n].request.Tunnel? && n in r.sendItems
    && r.calls[n].request.tunnel.header == ConnectionHeader(s.channelId, Cast8(s.sends + |cs| - 1), 0)
  }

  lemma SubmitExtends(s: Session, t: Session, front: seq<Cemi>, c: Cemi)
    requires Extends(s, t, front) && c.destination.Group? && KeyOf(c) !in t.requests
    ensures Extends(s, Submit(t, c), front + [c])
    ensures LastSent(s, Submit(t, c), front + [c])
  {
    SubmitFields(t, c);
    CastSuccessor(t.sends);
    hide Submit, Successor, Cast8, KeyOf, Linked;
    var r := Submit(t, c);
    assert r.sendItems[|t.sendItems|] == |t.calls|;
    forall key <- r.requests
      ensures key in s.requests || exists a :: 0 <= a < |front + [c]| && key == KeyOf((front + [c])[a])
    {
      if key == KeyOf(c) {
        assert (front + [c])[|front|] == c;
      } else if key !in s.requests {
        var a :| 0 <= a < |front| && key == KeyOf(front[a]);
        assert (front + [c])[a] == front[a];
      }
    }
  }

  lemma StillFree(s: Session, t: Session, front: seq<Cemi>, c: Cemi)
    requires Extends(s, t, front) && Submittable(s, front + [c])
    ensures Submittable(s, front) && c.destination.Group? && KeyOf(c) !in t.requests
  {
    hide KeyOf, Linked, Cast8;
    var cs := front + [c];
    assert cs[|front|] == c;
    forall a | 0 <= a < |front|
      ensures cs[a] == front[a] && KeyOf(front[a]) != KeyOf(c)
    {
    }
  }

  lemma FrontSubmittable(s: Session, cs: seq<Cemi>)
    requires Submittable(s, cs) && cs != []
    ensures Submittable(s, Front(cs)) && cs == Front(cs) + [Last(cs)]
    ensures Submits(cs) == Submits(Front(cs)) + [DoSubmit(Last(cs))]
  {
    hide KeyOf, Linked;
  }

  lemma SubmitsOne(s: Session, t: Session, front: seq<Cemi>, c: Cemi)
    requires Leads(s, Submits(front), t) && Extends(s, t, front) && Submittable(s, front + [c])
    ensures Leads(s, Submits(front) + [DoSubmit(c)], Submit(t, c))
    ensures Extends(s, Submit(t, c), front + [c]) && LastSent(s, Submit(t, c), front + [c])
  {
    StillFree(s, t, front, c);
    hide Leads, Possible, Next, Submit, KeyOf, Submits, Submittable, Linked, LastSent, Extends;
    SubmitStep(t, c);
    SubmitExtends(s, t, front, c);
    LeadsNext(s, Submits(front), t, DoSubmit(c));
  }

  /** Any list of writes that may be sent is sent; the last request carries the
      sequence of its position. */
  lemma {:induction false} SubmitsLead(s: Session, cs: seq<Cemi>) returns (r: Session)
    requires Good(s) && Submittable(s, cs)
    ensures Leads(s, Submits(cs), r) && Extends(s, r, cs)
    ensures cs != [] ==> LastSent(s, r, cs)
    decreases |cs|
  {
    if cs == [] {
      SequenceOfState(s);
      assert Submits(cs) == [];
      r := s;
    } else {
      hide Leads, Good, Extends, Submit, Submits, Submittable, LastSent, Linked;
      FrontSubmittable(s, cs);
      var t := SubmitsLead(s, Front(cs));
      SubmitsOne(s, t, Front(cs), Last(cs));
      r := Submit(t, Last(cs));
    }
  }

  lemma SequenceOfState(s: Session)
    requires Good(s)
    ensures s.sequence == Cast8(s.sends)
  {
    hide Cast8;
  }

  lemma BothFit(s: Session, t: Session, r: Session, i: nat, cs: seq<Cemi>)
    requires i in s.sendItems && s.calls[i].request.Tunnel? && |t.calls| == |s.calls| + 1
    requires s.calls <= t.calls && i in t.sendItems && t.sends == 0
    requires t.channelId == s.calls[i].request.tunnel.header.channel
    requires cs != [] && |cs| == Numeral(SequenceOf(s.calls[i])) + 1 && Extends(t, r, cs) && LastSent(t, r, cs)
    ensures var h := s.calls[i].request.tunnel.header; var k := |s.calls| + |cs|;
      i != k && Fits(r, h, i) && Fits(r, h, k) && r.sends == |cs| <= 256
  {
    var h := s.calls[i].request.tunnel.header;
    ByteBound(h.sequence);
    CastOfNumeral(h.sequence);
    hide Cast8, Numeral, KeyOf;
    assert i < |s.calls|;
    assert r.calls[i] == t.calls[i] == s.calls[i];
    assert i in r.sendItems;
  }

  /** From every reachable state in which `start` may be called while a tunnelling
      request is pending, a run in which the gateway gives the new connection the
      channel of that request, and the caller sends as many writes as its sequence
      number plus one, ends connected with two pending requests that one
      acknowledge fits, both within the window. */
  lemma StartWithPendingCollides(s: Session, i: nat, cs: seq<Cemi>, address: KnxAddress) returns (r: Session)
    requires Good(s) && MayStart(s) && IndividualInRange(address)
    requires i in s.sendItems && s.calls[i].request.Tunnel?
    requires |cs| == Numeral(SequenceOf(s.calls[i])) + 1 && Submittable(s, cs)
    ensures var h := s.calls[i].request.tunnel.header; var k := |s.calls| + |cs|;
      && Leads(s, Connecting(|s.calls|, h.channel, address, false) + Submits(cs), r)
      && r.linkUp && WithinWindow(r)
      && i != k && Fits(r, h, i) && Fits(r, h, k)
  {
    var h, n := s.calls[i].request.tunnel.header, |s.calls|;
    hide Leads, Good, MayStart, IndividualInRange, Connecting, Submits, Numeral, Submittable, Extends, LastSent, Fits,
      WithinWindow;
    var t := StartConnects(s, h.channel, address, false);
    var first := Connecting(n, h.channel, address, false);
    LeadsGood(s, first, t);
    SameSubmittable(s, t, cs);
    r := SubmitsLead(t, cs);
    LeadsOn(s, first, t, Submits(cs), r);
    BothFit(s, t, r, i, cs);
    SmallWindow(r);
    ExtendsLink(t, r, cs);
  }

  lemma SameSubmittable(s: Session, t: Session, cs: seq<Cemi>)
    requires Submittable(s, cs) && t.requests == s.requests
    ensures Submittable(t, cs)
  {
    hide KeyOf;
  }

  lemma ExtendsLink(s: Session, r: Session, cs: seq<Cemi>)
    requires Extends(s, r, cs)
    ensures r.linkUp == s.linkUp
  {
  }

  lemma Peaceful(n: nat, channel: byte, address: KnxAddress)
    ensures Connecting(n, channel, address, false) ==
      [DoStart, FrameSendDone(n), Receive(ConnectResponse(channel, 0, address)), FrameResume(n)]
  {
  }

  lemma SmallWindow(s: Session)
    requires s.sends <= 256
    ensures WithinWindow(s)
  {
  }

  lemma OneSubmit(d: Cemi)
    ensures Submits([d]) == [DoSubmit(d)]
  {
  }

  lemma OneSubmittable(s: Session, d: Cemi)
    requires d.destination.Group? && KeyOf(d) !in s.requests
    ensures Submittable(s, [d])
  {
    hide KeyOf;
  }

  lemma ZeroNumeral()
    ensures Numeral(0) == 0
  {
  }

  /** The second half: the gateway gives channel 7 again while frame 2 is pending. */
  lemma SecondConnection(t: Session, c: Cemi, d: Cemi, address: KnxAddress) returns (r: Session)
    requires Good(t) && MayStart(t) && IndividualInRange(address) && d.destination.Group? && KeyOf(d) !in t.requests
    requires |t.calls| == 3 && t.sendItems == [2]
    requires t.calls[2].request == Tunnel(TunnelRequest(ConnectionHeader(7, 0, 0), c))
    ensures Leads(t,
      [DoStart, FrameSendDone(3), Receive(ConnectResponse(7, 0, address)), FrameResume(3)] + [DoSubmit(d)], r)
    ensures r.linkUp && WithinWindow(r)
    ensures Fits(r, ConnectionHeader(7, 0, 0), 2) && Fits(r, ConnectionHeader(7, 0, 0), 4)
  {
    hide Leads, Good, MayStart, KeyOf, IndividualInRange, Connecting, Submits, Submittable, Fits, WithinWindow;
    assert t.sendItems[0] == 2;
    assert 2 in t.sendItems;
    assert SequenceOf(t.calls[2]) == 0;
    ZeroNumeral();
    OneSubmittable(t, d);
    r := StartWithPendingCollides(t, 2, [d], address);
    Peaceful(3, 7, address);
    OneSubmit(d);
  }

  lemma StillNothing(items: seq<nat>, before: seq<nat>)
    requires forall i <- items :: i in before
    ensures before == [] ==> items == []
  {
    if items != [] {
      assert items[0] in items;
    }
  }

  /** A run that connects, writes, is disconnected before the confirmation, connects
      again on the same channel while the second attempt of that write is pending,
      and writes again: the acknowledge with channel 7 and sequence 0 fits both
      pending requests. */
  lemma AckFitsTwice(c: Cemi, d: Cemi, address: KnxAddress) returns (states: seq<Session>, labels: seq<Label>)
    requires IndividualInRange(address) && c.destination.Group? && d.destination.Group? && KeyOf(c) != KeyOf(d)
    ensures labels ==
      [DoStart, FrameSendDone(0), Receive(ConnectResponse(7, 0, address)), FrameResume(0)]
      + ([DoSubmit(c)] + [FrameSendDone(1)] + [Receive(TunnelAck(ConnectionHeader(7, 0, 0)))] + [FrameResume(1)]
         + [ReceiveDisconnect(7)] + [JobExpire(0)] + [JobResume(0)]
         + ([DoStart, FrameSendDone(3), Receive(ConnectResponse(7, 0, address)), FrameResume(3)] + [DoSubmit(d)]))
    ensures IsHistory(states, labels) && |states| == |labels| + 1
    ensures var r := states[|labels|]; var h := ConnectionHeader(7, 0, 0);
      r.linkUp && WithinWindow(r) && Fits(r, h, 2) && Fits(r, h, 4)
  {
    hide Leads, Good, MayStart, KeyOf, IndividualInRange, Connecting, IsHistory, Fits, WithinWindow;
    InitialMayStart();
    var s := StartConnects(INITIAL, 7, address, false);
    var first := Connecting(0, 7, address, false);
    Peaceful(0, 7, address);
    LeadsGood(INITIAL, first, s);
    StillNothing(s.sendItems, INITIAL.sendItems);
    var t := WriteGoesOutDisconnected(s, c);
    LeadsGood(s, Retrying(s, c), t);
    var r := SecondConnection(t, c, d, address);
    var last := [DoStart, FrameSendDone(3), Receive(ConnectResponse(7, 0, address)), FrameResume(3)] + [DoSubmit(d)];
    LeadsOn(s, Retrying(s, c), t, last, r);
    LeadsOn(INITIAL, first, s, Retrying(s, c) + last, r);
    labels := first + (Retrying(s, c) + last);
    states := FromInitial(labels, r);
  }
}
