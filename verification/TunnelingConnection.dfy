/** The connection as an object: `TunnelingConnection` with the pending requests
    of the `KnxClientConnection` on top of it.  Every method is one of the steps
    of the session, carried out on the fields. */
module Connections {
  import opened Bytes
  import opened Wrappers
  import opened KnxAddresses
  import opened CemiFrames
  import opened TunnelFrames
  import opened AsyncMessageStates
  import opened ClientRouting
  import T = TunnelingSession
  import I = SessionInvariants
  import P = SessionTheorems
  import R = SessionReturns
  import A = SessionAnswers

  lemma CancelTwice<R>(l: Loop<R>)
    ensures Cancelled(Cancelled(l)) == Cancelled(l)
  {
  }

  /** Cancelling one item more. */
  lemma CancelNext(loops: seq<Loop<T.Response>>, items: seq<nat>, k: nat)
    requires k < |items| && items[k] < |loops|
    ensures var sofar := T.CancelAll(loops, items[..k]);
      T.CancelAll(loops, items[..k + 1]) == sofar[items[k] := Cancelled(sofar[items[k]])]
  {
    var sofar := T.CancelAll(loops, items[..k]);
    CancelTwice(loops[items[k]]);
    hide Cancelled;
    assert items[..k + 1] == items[..k] + [items[k]];
  }

  lemma TimerMeaning<R>(l: Loop<R>, completion: Completion)
    ensures TimerDone(l, completion) == l.(pc := Queued(completion))
  {
  }

  lemma NextMatch(calls: seq<T.Call>, items: seq<nat>, r: T.Response, k: nat)
    requires k < |items| && T.Within(items, |calls|)
    ensures T.Within(items[k..], |calls|) && T.Within(items[k + 1..], |calls|)
    ensures T.FirstMatch(calls, items[k..], r) ==
      if T.Matches(calls[items[k]].request, r) then Some(items[k]) else T.FirstMatch(calls, items[k + 1..], r)
  {
    hide T.Matches;
    assert items[k] in items;
    assert items[k..][0] == items[k] && items[k..][1..] == items[k + 1..];
  }

  lemma NoMatch(calls: seq<T.Call>, r: T.Response)
    ensures T.FirstMatch(calls, [], r) == None
  {
  }

  lemma ResumeMeaning(s: T.Session, i: nat)
    requires I.Good(s) && T.Possible(s, T.FrameResume(i))
    ensures P.TimesOut(s, i) && !s.closingDown ==> var r := T.Next(s, T.FrameResume(i));
      r.closingDown && i < |r.phases| && r.phases[i].ClosingDown?
  {
    hide I.Good, T.FrameResumed;
    if P.TimesOut(s, i) && !s.closingDown {
      R.TimeOutCloses(s, i);
    }
  }

  lemma TunnelMeaning(s: T.Session, t: TunnelRequest)
    requires I.Good(s) && T.Possible(s, T.ReceiveTunnel(t))
    ensures var r := T.Next(s, T.ReceiveTunnel(t));
      && r.wire == s.wire + [T.Acknowledged(t.header)] && r.notices == s.notices + [T.OnIncomingCemi(t.cemi)]
      && A.ConfirmsOnlyAsker(s, r, t.cemi)
  {
    hide I.Good, T.ReceivedTunnel, T.Throws, A.ConfirmsOnlyAsker;
    A.ConfirmsOnly(s, t);
  }

  lemma SubmitMeaning(s: T.Session, c: Cemi)
    requires T.Possible(s, T.DoSubmit(c))
    ensures var r := T.Next(s, T.DoSubmit(c));
      && KeyOf(c) in r.requests && r.requests[KeyOf(c)] == |s.jobs|
      && r.sequence == Successor(s.sequence) && |r.sendItems| == |s.sendItems| + 1
  {
    hide KeyOf, T.Linked, Successor;
  }

  /** Every listener has heard what was told since it was added. */
  ghost predicate Heard(joined: seq<nat>, inboxes: seq<seq<T.Notice>>, notices: seq<T.Notice>) {
    && |joined| == |inboxes|
    && forall k :: 0 <= k < |inboxes| ==> joined[k] <= |notices| && inboxes[k] == notices[joined[k]..]
  }

  lemma HeardNext(
      joined: seq<nat>, before: seq<seq<T.Notice>>, after: seq<seq<T.Notice>>, notices: seq<T.Notice>, n: T.Notice)
    requires Heard(joined, before, notices) && |after| == |before|
    requires forall k :: 0 <= k < |after| ==> after[k] == before[k] + [n]
    ensures Heard(joined, after, notices + [n])
  {
  }

  class ClientConnection {
    // the coroutines suspended in `sendRequest`
    var calls: seq<T.Call>
    var phases: seq<T.Phase>
    var loops: seq<Loop<T.Response>>

    // `TunnelingConnection`
    var sendItems: seq<nat>
    var sequence: byte
    var channelId: byte
    var closingDown: bool
    var knxAddress: KnxAddress
    var controlOpen: bool
    var dataOpen: bool
    var inboxes: seq<seq<T.Notice>>

    // `KnxClientConnection` and the coroutines suspended in `sendCemi`
    var cemis: seq<Cemi>
    var jobs: seq<Loop<Cemi>>
    var awaits: seq<Option<nat>>
    var requests: map<Key, nat>

    // history
    var closeFrame: Option<nat>
    var epoch: nat
    var sends: nat
    var wire: seq<T.Datagram>
    var notices: seq<T.Notice>
    var linkUp: bool
    ghost var joined: seq<nat>

    ghost function Model(): T.State
      reads this
    {
      T.State(calls, phases, loops, sendItems, sequence, channelId, closingDown, knxAddress, controlOpen, dataOpen,
              cemis, jobs, awaits, requests, closeFrame, epoch, sends, wire, notices, linkUp)
    }

    ghost predicate Valid()
      reads this
    {
      T.Linked(Model()) && Heard(joined, inboxes, notices)
    }

    /** What a caller may rely on between steps: the whole invariant of the session. */
    ghost predicate Consistent()
      reads this
    {
      Valid() && I.Good(Model())
    }

    constructor ()
      ensures Consistent() && Model() == T.INITIAL && inboxes == []
      ensures calls == [] && sendItems == [] && jobs == [] && requests == map[] && wire == [] && notices == []
      ensures !controlOpen && !dataOpen && !closingDown && !linkUp
      ensures sequence == 0 && channelId == 0 && knxAddress == KnxAddress(0, 0, 0)
    {
      I.InitialIsGood();
      calls, phases, loops := [], [], [];
      sendItems, sequence, channelId, closingDown := [], 0, 0, false;
      knxAddress, controlOpen, dataOpen, inboxes := T.NO_ADDRESS, false, false, [];
      cemis, jobs, awaits, requests := [], [], [], map[];
      closeFrame, epoch, sends, wire, notices, linkUp := None, 0, 0, [], [], false;
      joined := [];
    }

    /** What consistency means to a caller, at any time: the connection is closing
        down exactly while a disconnect frame is live, at most one disconnect request
        is pending, every listener has heard of an end between any two connections,
        no group request has sent more than four datagrams, and every one that has
        not ended is found under its key. */
    lemma Promises()
      requires Consistent()
      ensures closingDown <==> exists i: nat :: P.LiveDisconnect(Model(), i)
      ensures forall i: nat, k: nat :: P.PendingDisconnect(Model(), i) && P.PendingDisconnect(Model(), k) ==> i == k
      ensures forall k :: 0 <= k < |inboxes| ==> I.Separated(inboxes[k])
      ensures forall j :: 0 <= j < |jobs| ==> P.JobSends(wire, calls, j, |calls|) <= 4
      ensures forall j :: 0 <= j < |jobs| && !jobs[j].pc.Returned? ==>
        j < |cemis| && KeyOf(cemis[j]) in requests && requests[KeyOf(cemis[j])] == j
    {
      var s: T.Session := Model();
      assert |cemis| == |jobs|;
      P.ClosingDownOf(s);
      P.SeparatedIn(s);
      hide I.Good, I.Separated, P.JobSends, KeyOf, T.Linked;
      forall k | 0 <= k < |inboxes|
        ensures I.Separated(inboxes[k])
      {
        P.SeparatedSuffix(notices, joined[k]);
      }
      forall j | 0 <= j < |jobs|
        ensures P.JobSends(wire, calls, j, |calls|) <= 4
        ensures !jobs[j].pc.Returned? ==> KeyOf(cemis[j]) in requests && requests[KeyOf(cemis[j])] == j
      {
        P.AtMostFourOf(s, j);
        if !jobs[j].pc.Returned? {
          P.PendingUnderKey(s, j);
        }
      }
    }

    method AddListener()
      requires Consistent()
      modifies this
      ensures Model() == old(Model()) && inboxes == old(inboxes) + [[]]
      ensures Consistent()
    {
      hide I.Good, T.Linked;
      inboxes := inboxes + [[]];
      joined := joined + [|notices|];
    }

    method Deliver(n: T.Notice)
      modifies `inboxes
      ensures |inboxes| == |old(inboxes)|
      ensures forall k :: 0 <= k < |inboxes| ==> inboxes[k] == old(inboxes)[k] + [n]
    {
      var k := 0;
      while k < |inboxes|
        invariant k <= |inboxes| == |old(inboxes)|
        invariant forall i :: 0 <= i < k ==> inboxes[i] == old(inboxes)[i] + [n]
        invariant forall i :: k <= i < |inboxes| ==> inboxes[i] == old(inboxes)[i]
      {
        inboxes := inboxes[k := inboxes[k] + [n]];
        k := k + 1;
      }
    }

    method ForEveryListener(n: T.Notice)
      requires Valid()
      modifies this
      ensures Model() == T.Tell(old(Model()), n) && joined == old(joined)
      ensures Valid()
    {
      hide T.Linked, Heard;
      Deliver(n);
      HeardNext(joined, old(inboxes), inboxes, notices, n);
      notices := notices + [n];
      if n.OnConnect? {
        linkUp := true;
      } else if n.OnDisconnect? {
        linkUp := false;
      }
    }

    method Transmit(i: nat)
      requires Valid() && i < |calls|
      modifies this
      ensures Model() == T.Transmit(old(Model()), i) && joined == old(joined)
      ensures Valid()
    {
      hide T.Linked, Heard;
      var request := calls[i].request;
      if request.Tunnel? {
        wire := wire + [T.Sent(T.DataSocket, request, i)];
      } else {
        wire := wire + [T.Sent(T.ControlSocket, request, i)];
      }
    }

    /** The new coroutine and its retry machine. */
    method Suspend(q: T.Request, caller: T.Caller)
      modifies `calls, `phases, `loops
      ensures Model() == old(Model()).(
        calls := old(calls) + [T.Call(q, caller, epoch, sends)],
        phases := old(phases) + [T.Running],
        loops := old(loops) + [Begin(Fresh(), T.ATTEMPTS)])
    {
      calls := calls + [T.Call(q, caller, epoch, sends)];
      phases := phases + [T.Running];
      loops := loops + [Begin(Fresh(), T.ATTEMPTS)];
    }

    method PushItem(q: T.Request, caller: T.Caller)
      requires Valid()
      requires T.LinkedCall(T.Call(q, caller, epoch, sends), |calls|, |jobs|)
      modifies this
      ensures Model() == T.AddFrame(old(Model()), q, caller) && joined == old(joined)
      ensures Valid()
    {
      hide T.Linked, Heard, T.LinkedCall;
      var i := |calls|;
      Suspend(q, caller);
      sendItems := sendItems + [i];
    }

    method SendRequest(q: T.Request, caller: T.Caller)
      requires Valid()
      requires T.LinkedCall(T.Call(q, caller, epoch, sends), |calls|, |jobs|)
      modifies this
      ensures Model() == T.OpenFrame(old(Model()), q, caller) && joined == old(joined)
      ensures Valid()
    {
      hide T.Linked, Heard, T.LinkedCall, T.Transmit;
      hide T.AddFrame;
      var i := |calls|;
      PushItem(q, caller);
      Transmit(i);
    }

    method Send(j: nat)
      requires Valid() && j < |jobs|
      modifies this
      ensures Model() == T.Send(old(Model()), j) && joined == old(joined)
      ensures Valid()
    {
      assert |cemis| == |awaits| == |jobs|;
      hide Successor, T.Linked, Heard, T.OpenFrame;
      var i := |calls|;
      var sequenceSend := sequence;
      var request := T.Tunnel(TunnelRequest(ConnectionHeader(channelId, sequenceSend, 0), cemis[j]));
      SendRequest(request, T.BySend(j));
      sequence := Successor(sequence);
      sends := sends + 1;
      awaits := awaits[j := Some(i)];
    }

    method CancelItems()
      requires Valid()
      modifies `loops
      ensures loops == T.CancelAll(old(loops), sendItems)
    {
      assert forall i <- sendItems :: i < |loops|;
      hide Cancelled, T.CancelAll, T.Linked, Heard;
      var k := 0;
      CancelNothing(loops, sendItems);
      while k < |sendItems|
        invariant k <= |sendItems|
        invariant loops == T.CancelAll(old(loops), sendItems[..k])
        modifies `loops
      {
        var i := sendItems[k];
        assert i in sendItems;
        CancelNext(old(loops), sendItems, k);
        loops := loops[i := Cancelled(loops[i])];
        k := k + 1;
      }
      assert sendItems[..k] == sendItems;
    }

    /** `sequence = 0`; the history counts the zeroings. */
    method RestartSequence()
      modifies `sequence, `sends, `epoch
      ensures Model() == old(Model()).(sequence := 0, sends := 0, epoch := old(epoch) + 1)
    {
      sequence := 0;
      sends := 0;
      epoch := epoch + 1;
    }

    method Forget()
      modifies `sendItems, `knxAddress
      ensures Model() == old(Model()).(sendItems := [], knxAddress := T.NO_ADDRESS)
    {
      sendItems := [];
      knxAddress := T.NO_ADDRESS;
    }

    method Reset()
      requires Valid()
      modifies this
      ensures Model() == T.Reset(old(Model())) && joined == old(joined)
      ensures Valid()
    {
      hide T.CancelAll, T.Linked, Heard, Cancelled;
      CancelItems();
      Forget();
      RestartSequence();
    }

    lemma CancelNothing(loops: seq<Loop<T.Response>>, items: seq<nat>)
      ensures T.CancelAll(loops, items[..0]) == loops
    {
    }

    method StopControl()
      requires Valid()
      modifies this
      ensures Model() == T.StopControl(old(Model())) && joined == old(joined)
      ensures Valid()
      decreases T.OpenSockets(Model()), 0
    {
      hide T.Linked, Heard;
      if controlOpen {
        controlOpen := false;
        T.SocketsLinked(old(Model()));
        CloseWithoutDisconnect();
      }
    }

    method StopData()
      requires Valid()
      modifies this
      ensures Model() == T.StopData(old(Model())) && joined == old(joined)
      ensures Valid()
      decreases T.OpenSockets(Model()), 0
    {
      hide T.Linked, Heard;
      if dataOpen {
        dataOpen := false;
        T.SocketsLinked(old(Model()));
        CloseWithoutDisconnect();
      }
    }

    /** Re-entered through the callbacks of the sockets it stops. */
    method CloseWithoutDisconnect()
      requires Valid()
      modifies this
      ensures Model() == T.CloseWithoutDisconnect(old(Model())) && joined == old(joined)
      ensures Valid()
      ensures !controlOpen && !dataOpen && sendItems == [] && sequence == 0 && knxAddress == T.NO_ADDRESS
      ensures |notices| == |old(notices)| + 1 + T.OpenSockets(old(Model()))
      ensures forall k :: |old(notices)| <= k < |notices| ==> notices[k] == T.OnDisconnect
      decreases T.OpenSockets(Model()), 1
    {
      ghost var before: T.Session := Model();
      hide T.Reset, T.StopControl, T.StopData, T.Tell, T.Linked, Heard;
      T.SameSockets(Model());
      Reset();
      StopControl();
      StopData();
      ForEveryListener(T.OnDisconnect);
      P.CloseWithoutDisconnectEnds(before);
    }

    // ------------------------------------------------------------ jobs

    method SetJob(j: nat, l: Loop<Cemi>)
      requires Valid() && j < |jobs|
      modifies this
      ensures Model() == T.JobStep(old(Model()), j, l) && joined == old(joined)
      ensures Valid()
    {
      assert |cemis| == |awaits| == |jobs|;
      hide T.Linked, Heard, KeyOf;
      jobs := jobs[j := l];
      if l.pc.Returned? {
        var erased := KeyOf(cemis[j]);
        requests := map key | key in requests && key != erased :: requests[key];
      }
    }

    method SendReturned(j: nat)
      requires Valid() && j < |jobs|
      modifies this
      ensures Model() == T.SendReturned(old(Model()), j) && joined == old(joined)
      ensures Valid()
    {
      assert |cemis| == |awaits| == |jobs|;
      assert T.Linked(Model().(awaits := awaits[j := None]));
      hide T.Linked, Heard, T.JobStep, Transmitted;
      awaits := awaits[j := None];
      SetJob(j, Transmitted(jobs[j]));
    }

    // ------------------------------------------------------------ closing and returning

    method AwaitClose(c: T.Closer, i: nat)
      requires Valid() && T.LinkedCloser(Model(), c)
      modifies this
      ensures Model() == T.Suspend(old(Model()), c, i) && joined == old(joined)
      ensures Valid()
    {
      assert |awaits| == |jobs| && |phases| == |calls|;
      hide T.Linked, Heard;
      match c {
        case Detached =>
        case AckFailed(j) => awaits := awaits[j := Some(i)];
        case TimedOut(f) => phases := phases[f := T.ClosingDown];
      }
    }

    method BeginClosing(i: nat)
      requires Valid()
      modifies this
      ensures Model() == old(Model()).(closingDown := true, closeFrame := Some(i)) && joined == old(joined)
      ensures Valid()
    {
      hide Heard;
      closingDown := true;
      closeFrame := Some(i);
    }

    /** `close`: the guard makes a second call return at once. */
    method CloseFor(c: T.Closer)
      requires Valid() && T.LinkedCloser(Model(), c)
      modifies this
      ensures Model() == T.Close(old(Model()), c) && joined == old(joined)
      ensures Valid()
      decreases T.Depth(c), 2
    {
      hide T.Linked, Heard, T.Closed, T.OpenFrame, T.Suspend;
      if !closingDown {
        var i := |calls|;
        BeginClosing(i);
        SendRequest(T.Disconnect(channelId), T.ByClose(c));
        AwaitClose(c, i);
      } else {
        Closed(c);
      }
    }

    /** `close` returns to whoever awaits it. */
    method Closed(c: T.Closer)
      requires Valid() && T.LinkedCloser(Model(), c)
      modifies this
      ensures Model() == T.Closed(old(Model()), c) && joined == old(joined)
      ensures Valid()
      decreases T.Depth(c), 1
    {
      hide T.Linked, Heard, T.ReturnFrame, T.SendReturned;
      match c {
        case Detached =>
        case AckFailed(j) => SendReturned(j);
        case TimedOut(f) => ReturnFrame(f);
      }
    }

    method FinishClose()
      requires Valid()
      modifies this
      ensures Model() == T.CloseDone(old(Model())) && joined == old(joined)
      ensures Valid()
    {
      hide T.Linked, Heard, T.CloseWithoutDisconnect;
      CloseWithoutDisconnect();
      closingDown := false;
      closeFrame := None;
    }

    method EraseItem(i: nat)
      requires Valid() && i < |calls|
      modifies this
      ensures Model() == T.Finish(old(Model()), i) && joined == old(joined)
      ensures Valid()
    {
      assert |phases| == |calls|;
      hide T.Linked, Heard, T.Without;
      sendItems := T.Without(sendItems, i);
      var view := T.View(sendItems, sequence, knxAddress, controlOpen, dataOpen, |notices|);
      phases := phases[i := T.Done(phases[i].ClosingDown?, view)];
    }

    method Started(answer: Option<T.Response>)
      requires Valid()
      modifies this
      ensures Model() == T.Started(old(Model()), answer) && joined == old(joined)
      ensures Valid()
    {
      hide Heard, T.Tell, T.Reset;
      match answer {
        case Some(ConnectResponse(channel, _, address)) =>
          channelId := channel;
          knxAddress := address;
          ForEveryListener(T.OnConnect);
        case _ =>
          Reset();
      }
    }

    /** The end of `sendRequest`, and then its caller runs on. */
    method ReturnFrame(i: nat)
      requires Valid() && i < |calls|
      modifies this
      ensures Model() == T.ReturnFrame(old(Model()), i) && joined == old(joined)
      ensures Valid()
      ensures i < |old(loops)|
      ensures old(calls)[i].caller.BySend? ==>
        A.StatusDecides(old(Model()), Model(), old(calls)[i].caller.job, old(loops)[i].response)
      decreases i + 1, 0
    {
      ghost var before: T.Session := Model();
      if calls[i].caller.BySend? {
        A.AckStatus(before, i, calls[i].caller.job);
      }
      hide A.StatusDecides;
      assert |loops| == |calls| && T.LinkedCall(calls[i], i, |jobs|);
      hide T.Linked, Heard, T.Finish, T.Started, T.Close, T.Closed, T.CloseDone, T.SendReturned;
      var answer := loops[i].response;
      var caller := calls[i].caller;
      EraseItem(i);
      match caller {
        case ByStart =>
          Started(answer);
        case ByKeepAlive =>
        case ByDescription =>
        case BySend(j) =>
          if T.AckRefused(answer) {
            CloseFor(T.AckFailed(j));
          } else {
            SendReturned(j);
          }
        case ByClose(c) =>
          FinishClose();
          Closed(c);
      }
    }

    // ------------------------------------------------------------ the event loop resumes something

    method SetLoop(i: nat, l: Loop<T.Response>)
      requires Valid() && i < |calls|
      modifies this
      ensures Model() == T.WithLoop(old(Model()), i, l) && joined == old(joined)
      ensures Valid()
    {
      assert |loops| == |calls|;
      hide T.Linked, Heard;
      loops := loops[i := l];
    }

    method FrameSendDone(i: nat)
      requires Consistent() && T.Possible(Model(), T.FrameSendDone(i))
      modifies this
      ensures Model() == T.Next(old(Model()), T.FrameSendDone(i)) && joined == old(joined)
      ensures Consistent()
    {
      ghost var before: T.Session := Model();
      I.NextKeepsInv(before, T.FrameSendDone(i));
      assert |loops| == |calls|;
      hide I.Good, T.Linked, Heard, T.ReturnFrame, T.WithLoop, Transmitted;
      var l := Transmitted(loops[i]);
      SetLoop(i, l);
      if l.pc.Returned? {
        ReturnFrame(i);
      }
    }

    method FrameTimer(i: nat, completion: Completion)
      requires Valid() && T.Waits(Model(), i)
      modifies this
      ensures Model() == T.WithLoop(old(Model()), i, TimerDone(old(loops)[i], completion)) && joined == old(joined)
      ensures Valid()
      ensures loops == old(loops)[i := old(loops)[i].(pc := Queued(completion))]
    {
      assert |loops| == |calls|;
      TimerMeaning(loops[i], completion);
      var l := TimerDone(loops[i], completion);
      assert T.WithLoop(Model(), i, l).loops == loops[i := l];
      hide T.Linked, Heard, T.WithLoop, TimerDone;
      SetLoop(i, TimerDone(loops[i], completion));
    }

    method FrameExpire(i: nat)
      requires Consistent() && T.Possible(Model(), T.FrameExpire(i))
      modifies this
      ensures Model() == T.Next(old(Model()), T.FrameExpire(i)) && joined == old(joined)
      ensures Consistent()
      ensures i < |old(loops)| && loops == old(loops)[i := old(loops)[i].(pc := Queued(Expired))]
    {
      I.NextKeepsInv(Model(), T.FrameExpire(i));
      hide I.Good, T.Linked, Heard, T.WithLoop, TimerDone;
      FrameTimer(i, Expired);
    }

    method FrameFail(i: nat)
      requires Consistent() && T.Possible(Model(), T.FrameFail(i))
      modifies this
      ensures Model() == T.Next(old(Model()), T.FrameFail(i)) && joined == old(joined)
      ensures Consistent()
      ensures i < |old(loops)| && loops == old(loops)[i := old(loops)[i].(pc := Queued(Failed))]
    {
      I.NextKeepsInv(Model(), T.FrameFail(i));
      hide I.Good, T.Linked, Heard, T.WithLoop, TimerDone;
      FrameTimer(i, Failed);
    }

    method ResumeFrame(i: nat)
      requires Valid() && T.Possible(Model(), T.FrameResume(i))
      modifies this
      ensures Model() == T.Next(old(Model()), T.FrameResume(i)) && joined == old(joined)
      ensures Valid()
    {
      assert |loops| == |calls|;
      hide T.Linked, Heard, T.ReturnFrame, T.WithLoop, T.Close, T.Transmit, AfterWait;
      var l := AfterWait(loops[i], loops[i].pc.completion);
      SetLoop(i, l);
      if l.pc.Transmitting? {
        Transmit(i);
      } else {
        var timedOut := l.state == Timeout;
        if timedOut {
          CloseFor(T.TimedOut(i));
        } else {
          ReturnFrame(i);
        }
      }
    }

    method FrameResume(i: nat)
      requires Consistent() && T.Possible(Model(), T.FrameResume(i))
      modifies this
      ensures Model() == T.Next(old(Model()), T.FrameResume(i)) && joined == old(joined)
      ensures Consistent()
      ensures old(P.TimesOut(Model(), i) && !closingDown) ==>
        closingDown && i < |phases| && phases[i].ClosingDown?
    {
      hide I.Good, T.Linked, T.Next, T.Possible, Heard, T.Matches;
      ghost var before: T.Session := Model();
      I.NextKeepsInv(before, T.FrameResume(i));
      ResumeMeaning(before, i);
      ResumeFrame(i);
    }

    method JobTimer(j: nat, completion: Completion)
      requires Valid() && T.JobWaits(Model(), j)
      modifies this
      ensures Model() == T.JobStep(old(Model()), j, TimerDone(old(jobs)[j], completion)) && joined == old(joined)
      ensures Valid()
      ensures jobs == old(jobs)[j := old(jobs)[j].(pc := Queued(completion))]
    {
      TimerMeaning(jobs[j], completion);
      assert T.JobStep(Model(), j, TimerDone(jobs[j], completion)).jobs == jobs[j := TimerDone(jobs[j], completion)];
      hide T.Linked, Heard, T.JobStep, TimerDone;
      SetJob(j, TimerDone(jobs[j], completion));
    }

    method JobExpire(j: nat)
      requires Consistent() && T.Possible(Model(), T.JobExpire(j))
      modifies this
      ensures Model() == T.Next(old(Model()), T.JobExpire(j)) && joined == old(joined)
      ensures Consistent()
      ensures j < |old(jobs)| && jobs == old(jobs)[j := old(jobs)[j].(pc := Queued(Expired))]
    {
      I.NextKeepsInv(Model(), T.JobExpire(j));
      hide I.Good, T.Linked, Heard, T.JobStep, TimerDone;
      JobTimer(j, Expired);
    }

    method JobFail(j: nat)
      requires Consistent() && T.Possible(Model(), T.JobFail(j))
      modifies this
      ensures Model() == T.Next(old(Model()), T.JobFail(j)) && joined == old(joined)
      ensures Consistent()
      ensures j < |old(jobs)| && jobs == old(jobs)[j := old(jobs)[j].(pc := Queued(Failed))]
    {
      I.NextKeepsInv(Model(), T.JobFail(j));
      hide I.Good, T.Linked, Heard, T.JobStep, TimerDone;
      JobTimer(j, Failed);
    }

    method JobResume(j: nat)
      requires Consistent() && T.Possible(Model(), T.JobResume(j))
      modifies this
      ensures Model() == T.Next(old(Model()), T.JobResume(j)) && joined == old(joined)
      ensures Consistent()
    {
      ghost var before: T.Session := Model();
      I.NextKeepsInv(before, T.JobResume(j));
      hide I.Good, T.Linked, Heard, T.JobStep, T.Send, AfterWait;
      var l := AfterWait(jobs[j], jobs[j].pc.completion);
      SetJob(j, l);
      if l.pc.Transmitting? {
        Send(j);
      }
    }

    // ------------------------------------------------------------ something arrives

    /** The loop over the pending items, which stops at the first match. */
    method FindMatch(response: T.Response) returns (m: Option<nat>)
      requires Valid()
      ensures m == T.FirstMatch(calls, sendItems, response)
    {
      assert forall i <- sendItems :: i < |calls|;
      hide T.Linked, Heard, T.Matches, T.FirstMatch;
      assert sendItems[0..] == sendItems;
      for k := 0 to |sendItems|
        invariant T.Within(sendItems[k..], |calls|)
        invariant T.FirstMatch(calls, sendItems[k..], response) == T.FirstMatch(calls, sendItems, response)
      {
        NextMatch(calls, sendItems, response, k);
        var i := sendItems[k];
        if T.Matches(calls[i].request, response) {
          return Some(i);
        }
      }
      assert sendItems[|sendItems|..] == [];
      NoMatch(calls, response);
      return None;
    }

    method StoreResponse(response: T.Response)
      requires Valid()
      modifies this
      ensures Model() == T.Received(old(Model()), response) && joined == old(joined)
      ensures Valid()
    {
      assert |loops| == |calls|;
      assert forall i <- sendItems :: i < |calls|;
      hide T.Linked, Heard, T.FirstMatch, Replied, T.WithLoop;
      var m := FindMatch(response);
      match m {
        case Some(i) => SetLoop(i, Replied(loops[i], response));
        case None =>
      }
    }

    /** The response is stored in the oldest pending request of its own kind, and
        nothing else changes. */
    method OnReceiveResponse(response: T.Response)
      requires Consistent() && T.Parsable(response)
      modifies this
      ensures Model() == T.Next(old(Model()), T.Receive(response)) && joined == old(joined)
      ensures Consistent()
      ensures A.AnsweredByKind(old(Model()), Model(), response)
    {
      hide I.Good, T.Linked, T.Received, T.Parsable, Heard, A.AnsweredByKind;
      ghost var before: T.Session := Model();
      A.ReceivedByKind(before, response);
      I.ReceivedKeepsInv(before, response);
      StoreResponse(response);
    }

    method CheckForConfirm(c: Cemi)
      requires Valid()
      modifies this
      ensures Model() == T.Confirmed(old(Model()), c) && joined == old(joined)
      ensures Valid()
      ensures jobs != old(jobs) ==> c.messageCode == 0x2E && c.source == knxAddress && KeyOf(c) in requests
    {
      hide Heard, KeyOf, Replied;
      if c.messageCode != L_DATA_CON {
        return;
      }
      if c.source == knxAddress {
        var key := KeyOf(c);
        if key in requests {
          var j := requests[key];
          jobs := jobs[j := Replied(jobs[j], c)];
        }
      }
    }

    method WriteToSync(d: T.Datagram)
      requires Valid()
      modifies `wire
      ensures Model() == old(Model()).(wire := old(wire) + [d])
      ensures Valid()
    {
      hide Heard;
      wire := wire + [d];
    }

    method AcknowledgeAndTell(t: TunnelRequest)
      requires Valid() && T.Possible(Model(), T.ReceiveTunnel(t))
      modifies this
      ensures Model() == T.Next(old(Model()), T.ReceiveTunnel(t)) && joined == old(joined)
      ensures Valid()
    {
      hide T.Linked, Heard, T.Tell, T.Confirmed, T.Throws;
      WriteToSync(T.Acknowledged(t.header));
      ForEveryListener(T.OnIncomingCemi(t.cemi));
      CheckForConfirm(t.cemi);
    }

    method OnReceiveTunnelRequest(t: TunnelRequest)
      requires Consistent() && T.Possible(Model(), T.ReceiveTunnel(t))
      modifies this
      ensures Model() == T.Next(old(Model()), T.ReceiveTunnel(t)) && joined == old(joined)
      ensures Consistent()
      ensures wire == old(wire) + [T.Acknowledged(t.header)] && notices == old(notices) + [T.OnIncomingCemi(t.cemi)]
      ensures A.ConfirmsOnlyAsker(old(Model()), Model(), t.cemi)
    {
      hide I.Good, T.Linked, T.Next, T.Possible, Heard, T.Matches, A.ConfirmsOnlyAsker;
      ghost var before: T.Session := Model();
      I.NextKeepsInv(before, T.ReceiveTunnel(t));
      TunnelMeaning(before, t);
      AcknowledgeAndTell(t);
    }

    method AnswerDisconnect(channel: byte)
      requires Valid()
      modifies this
      ensures Model() == T.ReceivedDisconnect(old(Model()), channel) && joined == old(joined)
      ensures Valid()
    {
      hide T.Linked, Heard, T.Tell, T.Reset;
      if channel == channelId {
        WriteToSync(T.Disconnected(channelId));
        Reset();
        ForEveryListener(T.OnDisconnect);
      }
    }

    method OnReceiveDisconnectRequest(channel: byte)
      requires Consistent()
      modifies this
      ensures Model() == T.Next(old(Model()), T.ReceiveDisconnect(channel)) && joined == old(joined)
      ensures Consistent()
      ensures channel != old(channelId) <==> Model() == old(Model())
      ensures channel == old(channelId) ==> sendItems == [] && !linkUp && notices == old(notices) + [T.OnDisconnect]
    {
      hide I.Good, T.Linked, Heard, T.ReceivedDisconnect;
      ghost var before: T.Session := Model();
      I.ReceivedDisconnectKeepsInv(before, channel);
      P.DisconnectRequests(before, channel);
      AnswerDisconnect(channel);
    }

    /** A read error ends the reading coroutine: the socket counts as closed, and
        nobody is told. */
    method CloseFlag(socket: T.Socket)
      requires Valid()
      modifies this
      ensures Model() == T.Next(old(Model()), T.ReadError(socket)) && joined == old(joined)
      ensures Valid()
    {
      hide Heard;
      match socket {
        case ControlSocket => controlOpen := false;
        case DataSocket => dataOpen := false;
      }
    }

    method OnReadError(socket: T.Socket)
      requires Consistent()
      modifies this
      ensures Model() == T.Next(old(Model()), T.ReadError(socket)) && joined == old(joined)
      ensures Consistent()
    {
      hide I.Good, T.Linked, T.Next, Heard;
      ghost var before: T.Session := Model();
      I.NextKeepsInv(before, T.ReadError(socket));
      CloseFlag(socket);
    }

    // ------------------------------------------------------------ calls from outside

    method OpenSockets()
      requires Valid()
      modifies this
      ensures Model() == old(Model()).(controlOpen := true, dataOpen := true) && joined == old(joined)
      ensures Valid()
    {
      hide Heard;
      controlOpen := true;
      dataOpen := true;
    }

    method Start()
      requires Consistent() && T.Possible(Model(), T.DoStart)
      modifies this
      ensures Model() == T.Next(old(Model()), T.DoStart) && joined == old(joined)
      ensures Consistent()
      ensures controlOpen && dataOpen && sequence == 0
    {
      ghost var before: T.Session := Model();
      I.NextKeepsInv(before, T.DoStart);
      hide I.Good, T.Linked, Heard, T.OpenFrame, T.MayStart;
      OpenSockets();
      RestartSequence();
      assert Model() == T.Opened(old(Model()));
      SendRequest(T.Connect, T.ByStart);
    }

    /** `close` as its callers see it. */
    method Close()
      requires Consistent()
      modifies this
      ensures Model() == T.Next(old(Model()), T.DoClose) && joined == old(joined)
      ensures Consistent()
      ensures closingDown
    {
      I.NextKeepsInv(Model(), T.DoClose);
      hide I.Good, T.Linked, Heard, T.Close;
      CloseFor(T.Detached);
    }

    method PrintDescription()
      requires Consistent()
      modifies this
      ensures Model() == T.Next(old(Model()), T.DoDescribe) && joined == old(joined)
      ensures Consistent()
      ensures A.Opens(old(Model()), Model(), T.Call(T.Description, T.ByDescription, epoch, sends))
    {
      ghost var before: T.Session := Model();
      I.NextKeepsInv(before, T.DoDescribe);
      A.FrameOpening(before, T.Description, T.ByDescription);
      hide I.Good, T.Linked, Heard, T.OpenFrame, A.Opens;
      SendRequest(T.Description, T.ByDescription);
    }

    /** One turn of the keep-alive loop. */
    method CheckConnection()
      requires Consistent()
      modifies this
      ensures Model() == T.Next(old(Model()), T.DoKeepAlive) && joined == old(joined)
      ensures Consistent()
      ensures A.Opens(old(Model()), Model(), T.Call(T.ConnectState(channelId), T.ByKeepAlive, epoch, sends))
    {
      ghost var before: T.Session := Model();
      I.NextKeepsInv(before, T.DoKeepAlive);
      A.FrameOpening(before, T.ConnectState(channelId), T.ByKeepAlive);
      hide I.Good, T.Linked, Heard, T.OpenFrame, A.Opens;
      SendRequest(T.ConnectState(channelId), T.ByKeepAlive);
    }

    method SuspendJob(c: Cemi)
      modifies `cemis, `jobs, `awaits
      ensures Model() == old(Model()).(
        cemis := old(cemis) + [c],
        jobs := old(jobs) + [Begin(Fresh(), T.ATTEMPTS)],
        awaits := old(awaits) + [None])
    {
      cemis := cemis + [c];
      jobs := jobs + [Begin(Fresh(), T.ATTEMPTS)];
      awaits := awaits + [None];
    }

    method AddJob(c: Cemi)
      requires Valid()
      modifies this
      ensures Model() == T.AddJob(old(Model()), c) && joined == old(joined)
      ensures Valid()
    {
      hide T.Linked, Heard, KeyOf;
      requests := requests[KeyOf(c) := |jobs|];
      SuspendJob(c);
    }

    method StartJob(c: Cemi)
      requires Valid() && T.Possible(Model(), T.DoSubmit(c))
      modifies this
      ensures Model() == T.Next(old(Model()), T.DoSubmit(c)) && joined == old(joined)
      ensures Valid()
    {
      hide T.Linked, Heard, KeyOf, T.Send, T.AddJob;
      var j := |jobs|;
      AddJob(c);
      Send(j);
    }

    method SendCemi(c: Cemi)
      requires Consistent() && T.Possible(Model(), T.DoSubmit(c))
      modifies this
      ensures Model() == T.Next(old(Model()), T.DoSubmit(c)) && joined == old(joined)
      ensures Consistent()
      ensures KeyOf(c) in requests && requests[KeyOf(c)] == |old(jobs)|
      ensures sequence == Successor(old(sequence)) && |sendItems| == |old(sendItems)| + 1
    {
      hide I.Good, T.Linked, T.Next, T.Possible, Heard, T.Matches;
      ghost var before: T.Session := Model();
      I.NextKeepsInv(before, T.DoSubmit(c));
      SubmitMeaning(before, c);
      StartJob(c);
    }

    method WriteToGroup(address: KnxAddress, value: seq<byte>)
      requires Consistent() && KeyOf(GroupWrite(address, value)) !in requests
      modifies this
      ensures Model() == T.Next(old(Model()), T.DoSubmit(GroupWrite(address, value))) && joined == old(joined)
      ensures Consistent()
      ensures var key := KeyOf(GroupWrite(address, value)); key in requests && requests[key] == |old(jobs)|
    {
      hide I.Good, T.Linked, Heard, KeyOf, T.Submit;
      SendCemi(GroupWrite(address, value));
    }

    method WriteByteToGroup(address: KnxAddress, value: byte, only6Bits: bool)
      requires Consistent() && KeyOf(GroupWriteByte(address, value, only6Bits)) !in requests
      modifies this
      ensures Model() == T.Next(old(Model()), T.DoSubmit(GroupWriteByte(address, value, only6Bits)))
      ensures joined == old(joined)
      ensures Consistent()
      ensures var key := KeyOf(GroupWriteByte(address, value, only6Bits));
        key in requests && requests[key] == |old(jobs)|
    {
      hide I.Good, T.Linked, Heard, KeyOf, T.Submit;
      SendCemi(GroupWriteByte(address, value, only6Bits));
    }

    method SendReadGroup(address: KnxAddress)
      requires Consistent() && KeyOf(GroupRead(address)) !in requests
      modifies this
      ensures Model() == T.Next(old(Model()), T.DoSubmit(GroupRead(address))) && joined == old(joined)
      ensures Consistent()
      ensures KeyOf(GroupRead(address)) in requests && requests[KeyOf(GroupRead(address))] == |old(jobs)|
    {
      hide I.Good, T.Linked, Heard, KeyOf, T.Submit;
      SendCemi(GroupRead(address));
    }
  }
}