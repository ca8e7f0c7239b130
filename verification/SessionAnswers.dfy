/** What an answer, a confirmation, an acknowledge or a call does to the session, in
    terms of its fields: who gets it, and what goes on the wire. */
module SessionAnswers {
  import opened Bytes
  import opened Wrappers
  import opened KnxAddresses
  import opened CemiFrames
  import opened TunnelFrames
  import opened AsyncMessageStates
  import opened ClientRouting
  import opened TunnelingSession
  import opened SessionInvariants
  import opened SessionTheorems
  import opened SessionReturns
  import opened SessionEffects

  // ------------------------------------------------------------ responses

  /** The answer is stored in the oldest pending request of the wanted kind, and
      nothing else changes; without such a request nothing changes at all. */
  ghost predicate StoredInFirst(s: Session, r: Session, answer: Response, wanted: Request -> bool) {
    || (r == s && forall i <- s.sendItems :: i < |s.calls| && !wanted(s.calls[i].request))
    || exists i: nat :: i in s.sendItems && i < |s.calls| && i < |s.loops| && wanted(s.calls[i].request)
         && (forall k <- s.sendItems :: k < |s.calls| && (wanted(s.calls[k].request) ==> i <= k))
         && r == s.(loops := s.loops[i := Replied(s.loops[i], answer)])
  }

  lemma StoredByMatch(s: Session, answer: Response, wanted: Request -> bool)
    requires Good(s) && forall q :: Matches(q, answer) <==> wanted(q)
    ensures StoredInFirst(s, Received(s, answer), answer, wanted)
  {
    ItemsSorted(s);
    assert Within(s.sendItems, |s.calls|) && |s.loops| == |s.calls|;
    assert forall k <- s.sendItems :: k < |s.calls|;
    hide Good, Matches, Replied, Linked;
    var m := FirstMatch(s.calls, s.sendItems, answer);
    if m.Some? {
      FirstOfMatches(s.calls, s.sendItems, answer);
    }
    hide FirstMatch;
    FirstIsStored(s, Received(s, answer), answer, wanted, m);
  }

  lemma FirstIsStored(s: Session, r: Session, answer: Response, wanted: Request -> bool, m: Option<nat>)
    requires |s.loops| == |s.calls| && forall k <- s.sendItems :: k < |s.calls|
    requires m.None? ==> r == s && forall k <- s.sendItems :: !wanted(s.calls[k].request)
    requires m.Some? ==> m.value in s.sendItems && wanted(s.calls[m.value].request)
    requires m.Some? ==> r == s.(loops := s.loops[m.value := Replied(s.loops[m.value], answer)])
    requires m.Some? ==> forall k <- s.sendItems :: wanted(s.calls[k].request) ==> m.value <= k
    ensures StoredInFirst(s, r, answer, wanted)
  {
    hide Replied, Linked;
  }

  /** A response goes to the oldest pending request of its own kind, an acknowledge to
      the oldest with its channel and sequence, whatever its status, and no request of
      another kind is touched.  A search response goes nowhere. */
  ghost predicate AnsweredByKind(s: Session, r: Session, answer: Response) {
    match answer
    case ConnectResponse(_, _, _) => StoredInFirst(s, r, answer, (q: Request) => q.Connect?)
    case ConnectStateResponse(_, _) => StoredInFirst(s, r, answer, (q: Request) => q.ConnectState?)
    case DisconnectResponse(_, _) => StoredInFirst(s, r, answer, (q: Request) => q.Disconnect?)
    case DescriptionResponse => StoredInFirst(s, r, answer, (q: Request) => q.Description?)
    case TunnelAck(h) => StoredInFirst(s, r, answer, (q: Request) =>
        q.Tunnel? && q.tunnel.header.channel == h.channel && q.tunnel.header.sequence == h.sequence)
    case SearchResponse => r == s
  }

  lemma ReceivedByKind(s: Session, answer: Response)
    requires Good(s)
    ensures AnsweredByKind(s, Received(s, answer), answer)
  {
    hide Good, Received, StoredInFirst;
    match answer {
      case ConnectResponse(_, _, _) => StoredByMatch(s, answer, (q: Request) => q.Connect?);
      case ConnectStateResponse(_, _) => StoredByMatch(s, answer, (q: Request) => q.ConnectState?);
      case DisconnectResponse(_, _) => StoredByMatch(s, answer, (q: Request) => q.Disconnect?);
      case DescriptionResponse => StoredByMatch(s, answer, (q: Request) => q.Description?);
      case TunnelAck(h) => StoredByMatch(s, answer, (q: Request) =>
          q.Tunnel? && q.tunnel.header.channel == h.channel && q.tunnel.header.sequence == h.sequence);
      case SearchResponse =>
        StoredByMatch(s, answer, (q: Request) => false);
        NobodyWants(s, Received(s, answer), answer);
    }
  }

  /** In every run each response is stored in the oldest pending request of its kind,
      and in nothing else. */
  lemma AnswersByKind(states: seq<Session>, labels: seq<Label>, n: nat, answer: Response)
    requires IsHistory(states, labels) && n < |labels| && labels[n] == Receive(answer)
    ensures AnsweredByKind(states[n], states[n + 1], answer)
  {
    HistoryIsGood(states, labels, n);
    HistoryStep(states, labels, n);
    assert states[n + 1] == Received(states[n], answer);
    hide IsHistory, Good, Received, AnsweredByKind, Next, Possible;
    ReceivedByKind(states[n], answer);
  }

  lemma NobodyWants(s: Session, r: Session, answer: Response)
    requires StoredInFirst(s, r, answer, (q: Request) => false)
    ensures r == s
  {
  }

  /** In every run a disconnect response, for whatever channel and with whatever
      status, is stored in the one pending disconnect request. */
  lemma DisconnectAnswered(
      states: seq<Session>, labels: seq<Label>, n: nat, d: nat, channel: byte, status: byte)
    requires IsHistory(states, labels) && n < |labels| && labels[n] == Receive(DisconnectResponse(channel, status))
    requires PendingDisconnect(states[n], d)
    ensures var s, answer := states[n], DisconnectResponse(channel, status);
      d < |s.loops| && states[n + 1] == s.(loops := s.loops[d := Replied(s.loops[d], answer)])
  {
    var s, answer := states[n], DisconnectResponse(channel, status);
    AnswersByKind(states, labels, n, answer);
    HistoryIsGood(states, labels, n);
    ClosingDownOf(s);
    assert |s.loops| == |s.calls|;
    hide IsHistory, Good, Replied, LiveDisconnect;
    forall i: nat | i in s.sendItems && s.calls[i].request.Disconnect?
      ensures i == d
    {
      assert PendingDisconnect(s, i);
    }
  }

  // ------------------------------------------------------------ confirmations

  /** Job `j` has not ended and asked this type of this group. */
  predicate Asks(s: Session, j: nat, c: Cemi) {
    && j < |s.jobs| && j < |s.cemis| && !s.jobs[j].pc.Returned?
    && s.cemis[j].npdu.apci.apciType == c.npdu.apci.apciType
    && s.cemis[j].destination.address == c.destination.address
  }

  lemma SameKey(c: Cemi, d: Cemi)
    ensures KeyOf(c) == KeyOf(d) <==>
      c.npdu.apci.apciType == d.npdu.apci.apciType && c.destination.address == d.destination.address
  {
    KeysAgree(c.npdu.apci.apciType, c.destination.address, d.npdu.apci.apciType, d.destination.address);
    hide MapKey;
  }

  lemma AskerOf(s: Session, c: Cemi, j: nat)
    requires Good(s)
    ensures Asks(s, j, c) <==> KeyOf(c) in s.requests && s.requests[KeyOf(c)] == j
  {
    assert |s.cemis| == |s.jobs|;
    if j < |s.jobs| {
      SameKey(s.cemis[j], c);
    }
    hide KeyOf;
  }

  /** A frame confirms a group request if and only if its code is L_DATA.con, its
      source is the address of this tunnel, and a request that has not ended asked
      this type of this group.  Then it is stored in that one, whatever its other
      fields; otherwise no request changes. */
  ghost predicate ConfirmsOnlyAsker(s: Session, r: Session, c: Cemi) {
    && (forall j: nat :: Asks(s, j, c) && c.messageCode == 0x2E && c.source == s.knxAddress ==>
          r.jobs == s.jobs[j := Replied(s.jobs[j], c)])
    && ((forall j: nat :: !Asks(s, j, c)) || c.messageCode != 0x2E || c.source != s.knxAddress ==> r.jobs == s.jobs)
  }

  /** In every run an incoming frame is acknowledged with its own header and told to
      every listener, and confirms the request that it belongs to and no other. */
  lemma ConfirmsOnlyItsJob(states: seq<Session>, labels: seq<Label>, n: nat, t: TunnelRequest)
    requires IsHistory(states, labels) && n < |labels| && labels[n] == ReceiveTunnel(t)
    ensures ConfirmsOnlyAsker(states[n], states[n + 1], t.cemi)
    ensures var s, r := states[n], states[n + 1];
      r == s.(jobs := r.jobs, wire := s.wire + [Acknowledged(t.header)],
              notices := s.notices + [OnIncomingCemi(t.cemi)])
  {
    HistoryIsGood(states, labels, n);
    HistoryStep(states, labels, n);
    assert states[n + 1] == ReceivedTunnel(states[n], t);
    hide IsHistory, Good, ReceivedTunnel, Next, Possible, ConfirmsOnlyAsker;
    ConfirmsOnly(states[n], t);
  }

  lemma ReceivedFields(s: Session, t: TunnelRequest)
    ensures var r, c := ReceivedTunnel(s, t), t.cemi;
      && r == s.(jobs := r.jobs, wire := s.wire + [Acknowledged(t.header)], notices := s.notices + [OnIncomingCemi(c)])
      && if c.messageCode == 0x2E && c.source == s.knxAddress && KeyOf(c) in s.requests
         then s.requests[KeyOf(c)] < |s.jobs|
           && r.jobs == s.jobs[s.requests[KeyOf(c)] := Replied(s.jobs[s.requests[KeyOf(c)]], c)]
         else r.jobs == s.jobs
  {
    assert KeyOf(t.cemi) in s.requests ==> s.requests[KeyOf(t.cemi)] < |s.jobs|;
    hide KeyOf, Replied, Linked;
  }

  lemma ConfirmsOnly(s: Session, t: TunnelRequest)
    requires Good(s)
    ensures ConfirmsOnlyAsker(s, ReceivedTunnel(s, t), t.cemi)
    ensures var r := ReceivedTunnel(s, t);
      r == s.(jobs := r.jobs, wire := s.wire + [Acknowledged(t.header)],
              notices := s.notices + [OnIncomingCemi(t.cemi)])
  {
    forall j: nat
      ensures Asks(s, j, t.cemi) <==> KeyOf(t.cemi) in s.requests && s.requests[KeyOf(t.cemi)] == j
    {
      AskerOf(s, t.cemi, j);
    }
    ReceivedFields(s, t);
    hide Good, Asks, KeyOf, Replied, Linked, ReceivedTunnel;
    if KeyOf(t.cemi) in s.requests {
      assert Asks(s, s.requests[KeyOf(t.cemi)], t.cemi);
    }
  }

  // ------------------------------------------------------------ acknowledges

  /** What `send` leaves when the acknowledge is fine, when there is none, or when
      the connection is closing already: the transmission of its job is over. */
  predicate SendOver(s: Session, r: Session, j: nat) {
    && j < |s.jobs| && j < |s.awaits|
    && r.calls == s.calls && r.wire == s.wire && r.closingDown == s.closingDown
    && r.jobs == s.jobs[j := Transmitted(s.jobs[j])] && r.awaits == s.awaits[j := None]
  }

  /** The job now awaits a new disconnect request for the current channel. */
  predicate SendCloses(s: Session, r: Session, j: nat) {
    && j < |s.awaits|
    && r.calls == s.calls + [Call(Disconnect(s.channelId), ByClose(AckFailed(j)), s.epoch, s.sends)]
    && r.wire == s.wire + [Sent(ControlSocket, Disconnect(s.channelId), |s.calls|)]
    && r.closingDown && r.jobs == s.jobs && r.awaits == s.awaits[j := Some(|s.calls|)]
    && |s.calls| in r.sendItems
  }

  /** In both cases the frame is done and nothing else happens to the connection. */
  ghost predicate SendReturns(s: Session, r: Session, i: nat) {
    && i < |r.phases| && r.phases[i].Done? && i !in r.sendItems && s.loops <= r.loops
    && KeepsSockets(s, r) && r.sequence == s.sequence && r.channelId == s.channelId && r.notices == s.notices
    && r.knxAddress == s.knxAddress && r.cemis == s.cemis
  }

  lemma ClosesForJob(s: Session, j: nat)
    requires j < |s.jobs| && !s.closingDown
    ensures SendCloses(s, Close(s, AckFailed(j)), j)
  {
    CloseFields(s, AckFailed(j));
    assert |s.jobs| == |s.awaits|;
    hide Close, Linked;
  }

  lemma ReturnsToJob(s: Session, j: nat)
    requires j < |s.jobs|
    ensures SendOver(s, SendReturned(s, j), j)
  {
    assert |s.jobs| == |s.awaits|;
    hide KeyOf, Transmitted, Linked;
  }

  lemma FinishedFrame(s: Session, i: nat)
    requires i < |s.calls|
    ensures var t := Finish(s, i);
      && t.calls == s.calls && t.wire == s.wire && t.closingDown == s.closingDown && t.jobs == s.jobs
      && t.awaits == s.awaits && t.channelId == s.channelId && t.epoch == s.epoch && t.sends == s.sends
      && SendReturns(s, t, i) && t.loops == s.loops && t.notices == s.notices && t.knxAddress == s.knxAddress
  {
    assert |s.phases| == |s.calls|;
    hide Without, Linked;
  }

  lemma GoesOnReturned(s: Session, t: Session, i: nat, j: nat)
    requires SendReturns(s, t, i) && j < |t.jobs|
    ensures SendReturns(s, SendReturned(t, j), i)
  {
    hide Transmitted, KeyOf, Linked;
  }

  lemma ClosesReturned(s: Session, t: Session, i: nat, j: nat)
    requires SendReturns(s, t, i) && j < |t.jobs| && !t.closingDown && i < |t.calls|
    ensures SendReturns(s, Close(t, AckFailed(j)), i)
  {
    assert |t.phases| == |t.calls|;
    CloseFields(t, AckFailed(j));
    hide Close, Linked;
  }

  lemma ReturnOfSending(s: Session, i: nat, j: nat)
    requires i < |s.calls| && s.calls[i].caller == BySend(j)
    ensures j < |s.jobs|
    ensures var t := Finish(s, i); var answer := s.loops[i].response;
      ReturnFrame(s, i) ==
        if answer.Some? && answer.value.TunnelAck? && answer.value.header.status != 0 && !s.closingDown
        then Close(t, AckFailed(j)) else SendReturned(t, j)
  {
    assert LinkedCall(s.calls[i], i, |s.jobs|);
    var t := Finish(s, i);
    assert t.closingDown == s.closingDown by {
      FinishedFrame(s, i);
    }
    hide Finish, Started, Close, Closed, CloseDone, SendReturned, Linked;
    if s.closingDown {
      CloseTwice(t, AckFailed(j));
      ClosedRefused(t, j);
    }
  }

  predicate StatusDecides(s: Session, r: Session, j: nat, answer: Option<Response>) {
    if answer.Some? && answer.value.TunnelAck? && answer.value.header.status != 0 && !s.closingDown
    then SendCloses(s, r, j)
    else SendOver(s, r, j)
  }

  /** A returning `send` with a stored acknowledge closes the connection if and only
      if the status of the acknowledge is not zero and no close is under way: one
      disconnect request goes out, which the job awaits.  Otherwise, also when
      nothing was acknowledged, nothing is sent and the job goes on. */
  lemma AckStatus(s: Session, i: nat, j: nat)
    requires i < |s.calls| && s.calls[i].caller == BySend(j)
    ensures SendReturns(s, ReturnFrame(s, i), i) && StatusDecides(s, ReturnFrame(s, i), j, s.loops[i].response)
  {
    FinishedFrame(s, i);
    ReturnOfSending(s, i, j);
    hide Finish, ReturnFrame, Close, SendReturned, SendReturns, Linked;
    var t := Finish(s, i);
    GoesOnReturned(s, t, i, j);
    ReturnsToJob(t, j);
    if !s.closingDown {
      ClosesReturned(s, t, i, j);
      ClosesForJob(t, j);
    }
  }

  /** The frame is resumed and its retry machine is at its end, with a reply. */
  predicate ResumesAnswered(s: Session, a: Label, i: nat) {
    && i < |s.loops| && s.loops[i].state == Okay
    && ((a == FrameResume(i) && s.loops[i].pc == Queued(Aborted))
        || (a == FrameSendDone(i) && s.loops[i].pc.Transmitting?))
  }

  lemma AnsweredReturns(s: Session, a: Label, i: nat)
    requires Possible(s, a) && ResumesAnswered(s, a, i)
    ensures i < |s.calls|
    ensures Next(s, a) == ReturnFrame(WithLoop(s, i, s.loops[i].(pc := Returned)), i)
  {
    assert |s.loops| == |s.calls|;
    hide ReturnFrame, Close, Linked;
  }

  lemma AtItsEnd(s: Session, i: nat)
    requires i < |s.calls|
    ensures var t := WithLoop(s, i, s.loops[i].(pc := Returned));
      && t.calls == s.calls && t.wire == s.wire && t.closingDown == s.closingDown && t.jobs == s.jobs
      && t.awaits == s.awaits && t.channelId == s.channelId && t.epoch == s.epoch && t.sends == s.sends
      && t.sendItems == s.sendItems && t.loops[i].response == s.loops[i].response
  {
  }

  /** In every run the acknowledge that a group request got decides what its `send`
      does next: a status other than zero closes the connection, unless it is closing,
      and the job awaits that close; any other lets the job go on, and nothing is sent. */
  lemma AckDecides(states: seq<Session>, labels: seq<Label>, n: nat, i: nat, j: nat, h: ConnectionHeader)
    requires IsHistory(states, labels) && n < |labels| && ResumesAnswered(states[n], labels[n], i)
    requires i < |states[n].calls| && states[n].calls[i].caller == BySend(j)
    requires states[n].loops[i].response == Some(TunnelAck(h))
    ensures var s, r := states[n], states[n + 1];
      if h.status != 0 && !s.closingDown then SendCloses(s, r, j) else SendOver(s, r, j)
    ensures i < |states[n + 1].phases| && states[n + 1].phases[i].Done? && i !in states[n + 1].sendItems
  {
    HistoryStep(states, labels, n);
    var s := states[n];
    AnsweredReturns(s, labels[n], i);
    AtItsEnd(s, i);
    AckStatus(WithLoop(s, i, s.loops[i].(pc := Returned)), i, j);
    hide IsHistory, Possible, Next, ReturnFrame, WithLoop, Linked;
  }

  // ------------------------------------------------------------ other returns

  /** A keep-alive or a description request returns: its item is erased and nothing
      else happens, whatever it was answered. */
  lemma OthersReturnQuietly(s: Session, i: nat)
    requires i < |s.calls| && (s.calls[i].caller.ByKeepAlive? || s.calls[i].caller.ByDescription?)
    ensures var r := ReturnFrame(s, i);
      && r == s.(phases := r.phases, sendItems := Without(s.sendItems, i))
      && |r.phases| == |s.phases| && i < |r.phases| && r.phases[i].Done?
      && (forall k :: 0 <= k < |s.phases| && k != i ==> r.phases[k] == s.phases[k])
  {
    hide Without;
  }

  /** A disconnect request that a job or nobody awaits returns, answered or not: the
      session is shut down, the connection is no longer closing, nothing is sent, and
      the transmission of the job is over. */
  lemma DisconnectEnds(s: Session, d: nat, c: Closer)
    requires d < |s.calls| && s.calls[d].caller == ByClose(c) && !c.TimedOut?
    ensures var r := ReturnFrame(s, d);
      && !r.closingDown && !r.controlOpen && !r.dataOpen && !r.linkUp
      && r.sendItems == [] && r.sequence == 0 && r.knxAddress == NO_ADDRESS
      && r.calls == s.calls && r.wire == s.wire && r.channelId == s.channelId
      && |r.notices| == |s.notices| + 1 + OpenSockets(s)
      && (forall k :: |s.notices| <= k < |r.notices| ==> r.notices[k] == OnDisconnect)
      && |r.loops| == |s.loops|
      && (forall x <- s.sendItems :: x != d ==> x < |s.loops| && r.loops[x] == Cancelled(s.loops[x]))
      && (c.Detached? ==> r.jobs == s.jobs && r.awaits == s.awaits)
      && (c.AckFailed? ==>
            && c.job < |s.jobs| && c.job < |s.awaits|
            && r.jobs == s.jobs[c.job := Transmitted(s.jobs[c.job])] && r.awaits == s.awaits[c.job := None])
  {
    ReturnOfDisconnect(s, d);
    assert LinkedCall(s.calls[d], d, |s.jobs|);
    ShutAfterEnds(s, d);
    hide ReturnFrame, ShutAfter, Closed, SendReturned, Linked, Cancelled, Transmitted;
    var t := ShutAfter(s, d);
    if c.AckFailed? {
      ClosedRefused(t, c.job);
      ReturnsFully(t, c.job);
    } else {
      ClosedDetached(t);
    }
  }

  lemma ClosedDetached(s: Session)
    ensures Closed(s, Detached) == s
  {
    hide SendReturned, ReturnFrame;
  }

  lemma ReturnsFully(s: Session, j: nat)
    requires j < |s.jobs|
    ensures j < |s.awaits|
    ensures var r := SendReturned(s, j);
      r == s.(jobs := s.jobs[j := Transmitted(s.jobs[j])], awaits := s.awaits[j := None], requests := r.requests)
  {
    assert |s.jobs| == |s.awaits|;
    hide KeyOf, Transmitted, Linked;
  }

  lemma ShutAfterEnds(s: Session, d: nat)
    requires d < |s.calls|
    ensures var r := ShutAfter(s, d);
      && !r.closingDown && !r.controlOpen && !r.dataOpen && !r.linkUp
      && r.sendItems == [] && r.sequence == 0 && r.knxAddress == NO_ADDRESS
      && r.calls == s.calls && r.wire == s.wire && r.channelId == s.channelId
      && r.jobs == s.jobs && r.awaits == s.awaits
      && |r.notices| == |s.notices| + 1 + OpenSockets(s)
      && (forall k :: |s.notices| <= k < |r.notices| ==> r.notices[k] == OnDisconnect)
      && |r.loops| == |s.loops|
      && (forall x <- s.sendItems :: x != d ==> x < |s.loops| && r.loops[x] == Cancelled(s.loops[x]))
  {
    assert |s.loops| == |s.calls| && Within(s.sendItems, |s.calls|);
    hide Without, Cancelled, Linked;
  }

  lemma StartIsDone(s: Session, i: nat)
    requires i < |s.calls| && s.calls[i].caller.ByStart?
    ensures i < |ReturnFrame(s, i).phases| && ReturnFrame(s, i).phases[i].Done?
  {
    ReturnOfStart(s, i);
    StartedMeaning(Finish(s, i), s.loops[i].response);
    FinishedFrame(s, i);
    hide ReturnFrame, Started, Finish, CancelAll, Linked;
  }

  /** A frame that returns is done. */
  lemma ReturnedIsDone(s: Session, i: nat)
    requires MayReturn(s, i)
    ensures i < |ReturnFrame(s, i).phases| && ReturnFrame(s, i).phases[i].Done?
  {
    hide Inv, Clean, ReturnFrame, StatusDecides;
    match s.calls[i].caller {
      case ByStart => StartIsDone(s, i);
      case BySend(j) => AckStatus(s, i, j);
      case ByClose(_) => DisconnectReturns(s, i);
      case _ => OthersReturnQuietly(s, i);
    }
  }

  // ------------------------------------------------------------ calls from outside

  /** A new frame at the end of the pending ones, its first datagram sent, and nothing
      else changed. */
  predicate Opens(s: State, r: State, c: Call) {
    r == s.(calls := s.calls + [c],
            phases := s.phases + [Running],
            loops := s.loops + [Loop(Sending, 1, Transmitting, None)],
            sendItems := s.sendItems + [|s.calls|],
            wire := s.wire + [Sent(if c.request.Tunnel? then DataSocket else ControlSocket, c.request, |s.calls|)])
  }

  /** What each call from outside does, field by field: which request goes out, with
      the channel and the sequence number of this moment, and what else changes. */
  lemma CallsFromOutside(s: Session, c: Cemi)
    ensures Opens(s, Next(s, DoDescribe), Call(Description, ByDescription, s.epoch, s.sends))
    ensures Opens(s, Next(s, DoKeepAlive), Call(ConnectState(s.channelId), ByKeepAlive, s.epoch, s.sends))
    ensures if s.closingDown then Next(s, DoClose) == s
            else Opens(s.(closingDown := true, closeFrame := Some(|s.calls|)), Next(s, DoClose),
                       Call(Disconnect(s.channelId), ByClose(Detached), s.epoch, s.sends))
    ensures MayStart(s) ==>
      Opens(s.(controlOpen := true, dataOpen := true, sequence := 0, epoch := s.epoch + 1, sends := 0),
            Next(s, DoStart), Call(Connect, ByStart, s.epoch + 1, 0))
    ensures Possible(s, DoSubmit(c)) ==>
      Opens(s.(cemis := s.cemis + [c],
               jobs := s.jobs + [Loop(Sending, 1, Transmitting, None)],
               awaits := s.awaits + [Some(|s.calls|)],
               requests := s.requests[KeyOf(c) := |s.jobs|],
               sequence := s.sequence + 1, sends := s.sends + 1),
            Next(s, DoSubmit(c)),
            Call(Tunnel(TunnelRequest(ConnectionHeader(s.channelId, s.sequence, 0), c)), BySend(|s.jobs|),
                 s.epoch, s.sends))
  {
    hide Opens, OpenFrame, Close, Start, Submit, MayStart, KeyOf, Linked;
    FrameOpening(s, Description, ByDescription);
    FrameOpening(s, ConnectState(s.channelId), ByKeepAlive);
    StartsOpening(s);
    ClosesOpening(s);
    SubmitsOpening(s, c);
  }

  lemma FrameOpening(s: Session, q: Request, caller: Caller)
    requires LinkedCall(Call(q, caller, s.epoch, s.sends), |s.calls|, |s.jobs|)
    ensures Opens(s, OpenFrame(s, q, caller), Call(q, caller, s.epoch, s.sends))
  {
    hide Linked;
  }

  lemma ClosesOpening(s: Session)
    ensures if s.closingDown then Close(s, Detached) == s
            else Opens(s.(closingDown := true, closeFrame := Some(|s.calls|)), Close(s, Detached),
                       Call(Disconnect(s.channelId), ByClose(Detached), s.epoch, s.sends))
  {
    if s.closingDown {
      CloseTwice(s, Detached);
      ClosedDetached(s);
    } else {
      CloseFields(s, Detached);
    }
    hide Close, Closed, Linked;
  }

  lemma StartsOpening(s: Session)
    ensures Opens(s.(controlOpen := true, dataOpen := true, sequence := 0, epoch := s.epoch + 1, sends := 0),
                  Start(s), Call(Connect, ByStart, s.epoch + 1, 0))
  {
  }

  lemma SubmitsOpening(s: Session, c: Cemi)
    ensures Opens(s.(cemis := s.cemis + [c],
               jobs := s.jobs + [Loop(Sending, 1, Transmitting, None)],
               awaits := s.awaits + [Some(|s.calls|)],
               requests := s.requests[KeyOf(c) := |s.jobs|],
               sequence := s.sequence + 1, sends := s.sends + 1),
            Submit(s, c),
            Call(Tunnel(TunnelRequest(ConnectionHeader(s.channelId, s.sequence, 0), c)), BySend(|s.jobs|),
                 s.epoch, s.sends))
  {
    assert |s.jobs| == |s.awaits| == |s.cemis|;
    hide KeyOf, Linked, LinkedCall;
    assert (s.awaits + [None])[|s.jobs| := Some(|s.calls|)] == s.awaits + [Some(|s.calls|)];
  }

  /** A read error closes its own socket and changes nothing else. */
  lemma ReadErrorsCloseOneSocket(s: Session)
    ensures Next(s, ReadError(ControlSocket)) == s.(controlOpen := false)
    ensures Next(s, ReadError(DataSocket)) == s.(dataOpen := false)
  {
    assert Possible(s, ReadError(ControlSocket));
  }

  // ------------------------------------------------------------ the wire

  /** A request made in state `s` names the channel and the sequence number of `s`,
      with status zero, and carries the frame of its job. */
  predicate OfTheMoment(s: Session, r: Session, c: Call) {
    match c.caller
    case ByStart => c.request == Connect
    case ByKeepAlive => c.request == ConnectState(s.channelId)
    case ByDescription => c.request == Description
    case ByClose(_) => c.request == Disconnect(s.channelId)
    case BySend(j) =>
      j < |r.cemis|
      && c.request == Tunnel(TunnelRequest(ConnectionHeader(s.channelId, s.sequence, 0), r.cemis[j]))
  }

  /** A step opens at most one frame. */
  predicate OpensAtMostOne(s: Session, r: Session) {
    || r.calls == s.calls
    || (|r.calls| == |s.calls| + 1 && s.calls <= r.calls && OfTheMoment(s, r, r.calls[|s.calls|]))
  }

  /** What a step may put on the wire: the answer to what arrived, the request of a
      frame that it opened, or the request of the frame that it resumed, again. */
  predicate MaySend(s: Session, a: Label, r: Session, d: Datagram) {
    match d
    case Acknowledged(h) => a.ReceiveTunnel? && h == a.tunnel.header
    case Disconnected(channel) => a == ReceiveDisconnect(channel) && channel == s.channelId
    case Sent(socket, q, f) =>
      && f < |r.calls| && q == r.calls[f].request && (socket == DataSocket <==> q.Tunnel?)
      && (f == |s.calls| || (f < |s.calls| && a == FrameResume(f)))
  }

  predicate SendsAtMostOne(s: Session, a: Label, r: Session) {
    || r.wire == s.wire
    || (|r.wire| == |s.wire| + 1 && s.wire <= r.wire && MaySend(s, a, r, r.wire[|s.wire|]))
  }

  predicate StepSends(s: Session, a: Label, r: Session) {
    OpensAtMostOne(s, r) && SendsAtMostOne(s, a, r) && s.cemis <= r.cemis
  }

  lemma SilentStep(s: Session, a: Label, r: Session)
    requires r.calls == s.calls && r.wire == s.wire && r.cemis == s.cemis
    ensures StepSends(s, a, r)
  {
  }

  lemma OpeningStep(s: Session, a: Label, t: State, r: Session, c: Call)
    requires Opens(t, r, c) && t.calls == s.calls && t.wire == s.wire && OfTheMoment(s, r, c) && s.cemis <= r.cemis
    ensures StepSends(s, a, r)
  {
  }

  lemma SettlingStep(s: Session, a: Label, t: Session, r: Session)
    requires t.calls == s.calls && t.wire == s.wire && t.cemis == s.cemis && t.channelId == s.channelId
    requires SendsAtMostDisconnect(t, r) && r.cemis == t.cemis
    ensures StepSends(s, a, r)
  {
  }

  lemma ResumedSends(s: Session, i: nat)
    requires Good(s) && i < |s.calls| && s.loops[i].pc.Queued?
    ensures StepSends(s, FrameResume(i), FrameResumed(s, i))
  {
    FrameResumedSettles(s, i);
    hide Good, AfterWait, FrameResumed, LoopsSettle, ItemsGo, StepSends;
    var l := AfterWait(s.loops[i], s.loops[i].pc.completion);
    if l.pc.Transmitting? {
      ResentSends(s, i, l);
    } else {
      SettlingStep(s, FrameResume(i), WithLoop(s, i, l), FrameResumed(s, i));
    }
  }

  lemma ResentSends(s: Session, i: nat, l: Loop<Response>)
    requires i < |s.calls|
    ensures StepSends(s, FrameResume(i), Transmit(WithLoop(s, i, l), i))
  {
  }

  lemma SentSends(s: Session, i: nat)
    requires Good(s) && i < |s.calls| && s.loops[i].pc.Transmitting?
    ensures StepSends(s, FrameSendDone(i), FrameSent(s, i))
  {
    FrameSentSettles(s, i);
    hide Good, Transmitted, FrameSent, LoopsSettle, ItemsGo, StepSends;
    SettlingStep(s, FrameSendDone(i), WithLoop(s, i, Transmitted(s.loops[i])), FrameSent(s, i));
  }

  lemma RetrySends(s: Session, j: nat, t: Session)
    requires j < |t.jobs| && t.calls == s.calls && t.wire == s.wire && t.cemis == s.cemis
    requires t.channelId == s.channelId && t.sequence == s.sequence
    ensures StepSends(s, JobResume(j), Send(t, j))
  {
    assert |t.cemis| == |t.jobs|;
    hide Successor, Linked, LinkedCall;
  }

  lemma JobResumedSends(s: Session, j: nat)
    requires j < |s.jobs| && s.jobs[j].pc.Queued?
    ensures StepSends(s, JobResume(j), JobResumed(s, j))
  {
    var l := AfterWait(s.jobs[j], s.jobs[j].pc.completion);
    var t := JobStep(s, j, l);
    JobStepSends(s, JobResume(j), j, l);
    hide AfterWait, JobStep, Send, StepSends, Linked;
    if l.pc.Transmitting? {
      RetrySends(s, j, t);
    }
  }

  lemma JobStepSends(s: Session, a: Label, j: nat, l: Loop<Cemi>)
    requires j < |s.jobs|
    ensures var r := JobStep(s, j, l);
      && r.calls == s.calls && r.wire == s.wire && r.cemis == s.cemis
      && r.channelId == s.channelId && r.sequence == s.sequence && StepSends(s, a, r)
  {
    hide KeyOf, Linked, StepSends;
    SilentStep(s, a, JobStep(s, j, l));
  }

  lemma ArrivalSends(s: Session, a: Label)
    requires Possible(s, a) && (a.Receive? || a.ReceiveTunnel? || a.ReceiveDisconnect?)
    ensures StepSends(s, a, Next(s, a))
  {
    hide FirstMatch, KeyOf, Replied, CancelAll, Throws, Parsable, Linked, StepSends;
    match a {
      case Receive(answer) => SilentStep(s, a, Next(s, a));
      case ReceiveTunnel(t) => AnswerStep(s, a, Next(s, a), Acknowledged(t.header));
      case ReceiveDisconnect(channel) =>
        if channel == s.channelId {
          AnswerStep(s, a, Next(s, a), Disconnected(channel));
        } else {
          SilentStep(s, a, Next(s, a));
        }
    }
  }

  lemma AnswerStep(s: Session, a: Label, r: Session, d: Datagram)
    requires r.calls == s.calls && r.cemis == s.cemis && r.wire == s.wire + [d] && MaySend(s, a, r, d)
    ensures StepSends(s, a, r)
  {
  }

  lemma CallSends(s: Session, a: Label)
    requires Possible(s, a) && (a.DoStart? || a.DoDescribe? || a.DoKeepAlive? || a.DoClose? || a.DoSubmit?)
    ensures StepSends(s, a, Next(s, a))
  {
    var c := if a.DoSubmit? then a.cemi else GroupRead(NO_ADDRESS);
    CallsFromOutside(s, c);
    hide MayStart, KeyOf, Start, Submit, Close, OpenFrame, Linked;
    var r := Next(s, a);
    var n := |s.calls|;
    match a {
      case DoStart =>
        var t := s.(controlOpen := true, dataOpen := true, sequence := 0, epoch := s.epoch + 1, sends := 0);
        OpeningStep(s, a, t, r, Call(Connect, ByStart, s.epoch + 1, 0));
      case DoDescribe =>
        OpeningStep(s, a, s, r, Call(Description, ByDescription, s.epoch, s.sends));
      case DoKeepAlive =>
        OpeningStep(s, a, s, r, Call(ConnectState(s.channelId), ByKeepAlive, s.epoch, s.sends));
      case DoClose =>
        if s.closingDown {
          SilentStep(s, a, r);
        } else {
          OpeningStep(s, a, s.(closingDown := true, closeFrame := Some(n)), r,
                      Call(Disconnect(s.channelId), ByClose(Detached), s.epoch, s.sends));
        }
      case DoSubmit(c) =>
        SubmitSends(s, c);
    }
  }

  lemma SubmitSends(s: Session, c: Cemi)
    ensures StepSends(s, DoSubmit(c), Submit(s, c))
  {
    SubmitsOpening(s, c);
    assert |s.cemis| == |s.jobs|;
    hide KeyOf, Submit, Linked;
  }

  /** Every step opens at most one frame, with the channel and the sequence number of
      the state before it, and puts at most one datagram on the wire. */
  lemma OneDatagramAStep(states: seq<Session>, labels: seq<Label>, n: nat)
    requires IsHistory(states, labels) && n < |labels|
    ensures StepSends(states[n], labels[n], states[n + 1])
  {
    HistoryIsGood(states, labels, n);
    HistoryStep(states, labels, n);
    hide IsHistory, Good, StepSends;
    StepSendsAt(states[n], labels[n]);
  }

  lemma StepSendsAt(s: Session, a: Label)
    requires Good(s) && Possible(s, a)
    ensures StepSends(s, a, Next(s, a))
  {
    hide Good, StepSends, Start, OpenFrame, Close, Submit, FrameSent, FrameResumed, JobStep, JobResumed, Received,
      ReceivedTunnel, ReceivedDisconnect, MayStart, Throws, KeyOf, Parsable, TimerDone;
    match a {
      case FrameSendDone(i) => SentSends(s, i);
      case FrameResume(i) => ResumedSends(s, i);
      case FrameExpire(i) => SilentStep(s, a, Next(s, a));
      case FrameFail(i) => SilentStep(s, a, Next(s, a));
      case JobExpire(j) => JobStepSends(s, a, j, TimerDone(s.jobs[j], Expired));
      case JobFail(j) => JobStepSends(s, a, j, TimerDone(s.jobs[j], Failed));
      case JobResume(j) => JobResumedSends(s, j);
      case Receive(_) => ArrivalSends(s, a);
      case ReceiveTunnel(_) => ArrivalSends(s, a);
      case ReceiveDisconnect(_) => ArrivalSends(s, a);
      case ReadError(_) => SilentStep(s, a, Next(s, a));
      case _ => CallSends(s, a);
    }
  }

  /** In every run each request names the channel, and each tunnelling request the
      sequence number, of the state in which it was made, and a group request carries
      the frame that its caller submitted, in both its attempts. */
  lemma {:induction false} RequestsOfTheirMoment(states: seq<Session>, labels: seq<Label>, n: nat, i: nat)
    returns (m: nat)
    requires IsHistory(states, labels) && n < |states| && i < |states[n].calls|
    ensures m < n && |states[m].calls| == i
    ensures OfTheMoment(states[m], states[n], states[n].calls[i])
    decreases n
  {
    hide Possible, Next;
    OneDatagramAStep(states, labels, n - 1);
    var s, r := states[n - 1], states[n];
    if i < |s.calls| {
      m := RequestsOfTheirMoment(states, labels, n - 1, i);
      assert r.calls[i] == s.calls[i];
    } else {
      m := n - 1;
    }
  }
}
