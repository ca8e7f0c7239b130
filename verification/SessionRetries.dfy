/** The retry machines inside the session are the retry machine of one message:
    the events that they went through are exactly the labels of the run that name
    them, so that they time out, fail and resend exactly when their waits did. */
module SessionRetries {
  import opened Bytes
  import opened Wrappers
  import opened CemiFrames
  import opened TunnelFrames
  import opened AsyncMessageStates
  import opened ClientRouting
  import opened TunnelingSession
  import opened SessionInvariants
  import opened SessionTheorems
  import opened SessionReturns
  import opened SessionEffects
  import opened SessionAnswers
  import opened SessionRuns

  // ------------------------------------------------------------ events and labels

  /** The steps of frame `i` in a run, in their order. */
  function FrameEvents(labels: seq<Label>, i: nat): seq<Event<Response>> {
    if labels == [] then [] else FrameEvents(Front(labels), i) + FrameEvent(Last(labels), i)
  }

  function JobEvents(labels: seq<Label>, j: nat): seq<Event<Cemi>> {
    if labels == [] then [] else JobEvents(Front(labels), j) + JobEvent(Last(labels), j)
  }

  /** The events of the coroutine itself. */
  function Own<R>(evs: seq<Event<R>>): seq<Event<R>> {
    if evs == [] then []
    else Own(Front(evs)) + if Last(evs).Reply? || Last(evs).Abort? then [] else [Last(evs)]
  }

  /** Those of them that come from the timer. */
  function Timed<R>(evs: seq<Event<R>>): seq<Event<R>> {
    if evs == [] then []
    else Timed(Front(evs)) + if Last(evs).Reply? || Last(evs).Abort? || Last(evs).SendDone? then [] else [Last(evs)]
  }

  lemma OneMore<R>(k: uint32, evs: seq<Event<R>>, ev: Event<R>)
    ensures After(k, evs + [ev]) == Step(After(k, evs), ev)
    ensures IsRun(k, evs) && Enabled(After(k, evs), ev) ==> IsRun(k, evs + [ev])
    ensures Own(evs + [ev]) == Own(evs) + if ev.Reply? || ev.Abort? then [] else [ev]
    ensures Timed(evs + [ev]) == Timed(evs) + if ev.Reply? || ev.Abort? || ev.SendDone? then [] else [ev]
    ensures Expiries(evs + [ev]) == Expiries(evs) + if ev.Expire? then 1 else 0
    ensures Failures(evs + [ev]) == Failures(evs) + if ev.Fail? then 1 else 0
  {
    hide Step, Enabled;
    assert Front(evs + [ev]) == evs && Last(evs + [ev]) == ev;
  }

  lemma LabelsMore(labels: seq<Label>, n: nat, i: nat)
    requires n < |labels|
    ensures FrameEvents(labels[..n + 1], i) == FrameEvents(labels[..n], i) + FrameEvent(labels[n], i)
    ensures JobEvents(labels[..n + 1], i) == JobEvents(labels[..n], i) + JobEvent(labels[n], i)
    ensures multiset(labels[..n + 1]) == multiset(labels[..n]) + multiset{labels[n]}
  {
    hide FrameEvent, JobEvent;
    var more := labels[..n + 1];
    assert more == labels[..n] + [labels[n]];
    assert Front(more) == labels[..n] && Last(more) == labels[n];
  }

  // ------------------------------------------------------------ frames

  /** `evs` is what happened to frame `i`: its own steps are exactly the labels of
      the run that name it, and what it was answered was received. */
  ghost predicate FrameRun(labels: seq<Label>, i: nat, p: Phase, l: Loop<Response>, evs: seq<Event<Response>>) {
    && IsRun(2, evs) && Own(evs) == FrameEvents(labels, i)
    && (forall e <- evs :: e.Reply? ==> Receive(e.r) in labels)
    && if p.Running? then After(2, evs) == l else After(2, evs).pc.Returned?
  }

  lemma EventEnabled(s: Session, a: Label, i: nat)
    requires Good(s) && Possible(s, a) && i < |s.calls|
    ensures FrameEvent(a, i) != [] ==>
      && |FrameEvent(a, i)| == 1 && s.phases[i].Running?
      && Enabled(s.loops[i], FrameEvent(a, i)[0]) && !FrameEvent(a, i)[0].Reply? && !FrameEvent(a, i)[0].Abort?
  {
    FrameFits(s, i);
    hide Good, MayStart, Throws, KeyOf, Parsable;
  }

  lemma NoEventBefore(s: Session, a: Label, i: nat)
    requires Possible(s, a) && i >= |s.calls|
    ensures FrameEvent(a, i) == []
  {
    hide MayStart, Throws, KeyOf, Parsable;
  }

  lemma {:induction false} NoEventsBefore(states: seq<Session>, labels: seq<Label>, n: nat, i: nat)
    requires IsHistory(states, labels) && n < |states| && i >= |states[n].calls|
    ensures FrameEvents(labels[..n], i) == []
  {
    hide Possible, Next, FrameEvent;
    if n > 0 {
      HistoryLater(states, labels, n - 1, n);
      NoEventsBefore(states, labels, n - 1, i);
      HistoryStep(states, labels, n - 1);
      LabelsMore(labels, n - 1, i);
      NoEventBefore(states[n - 1], labels[n - 1], i);
    }
  }

  /** The own step of the frame, if the label is one. */
  lemma OwnStep(s: Session, a: Label, i: nat, evs: seq<Event<Response>>) returns (more: seq<Event<Response>>)
    requires Good(s) && Possible(s, a) && i < |s.calls|
    requires IsRun(2, evs) && After(2, evs) == s.loops[i]
    ensures more == evs + FrameEvent(a, i) && IsRun(2, more)
    ensures After(2, more) == Stepped(s.loops[i], FrameEvent(a, i))
    ensures Own(more) == Own(evs) + FrameEvent(a, i)
  {
    EventEnabled(s, a, i);
    hide Good, Possible, FrameEvent, IsRun, After, Own, Step, Enabled;
    more := evs + FrameEvent(a, i);
    if FrameEvent(a, i) != [] {
      OneMore(2, evs, FrameEvent(a, i)[0]);
      assert FrameEvent(a, i) == [FrameEvent(a, i)[0]];
    } else {
      assert more == evs;
    }
  }

  lemma FitsPhase(r: Session, i: nat)
    requires Good(r) && i < |r.calls|
    ensures r.phases[i].Running? <==> !r.loops[i].pc.Returned?
  {
    FrameFits(r, i);
    hide Good;
  }

  lemma WritesKeepReturned<R>(l: Loop<R>, x: R)
    ensures Cancelled(l).pc.Returned? == Replied(l, x).pc.Returned? == l.pc.Returned?
    ensures Step(l, Event.Abort) == Cancelled(l) && Step(l, Reply(x)) == Replied(l, x)
    ensures !l.pc.Returned? ==> Enabled(l, Event.Abort) && Enabled(l, Reply(x))
  {
  }

  lemma RepliesOf(evs: seq<Event<Response>>, more: seq<Event<Response>>, labels: seq<Label>, a: Label)
    requires forall e <- evs :: e.Reply? ==> Receive(e.r) in labels
    requires forall e <- more :: e.Reply? ==> a == Receive(e.r)
    ensures forall e <- evs + more :: e.Reply? ==> Receive(e.r) in labels + [a]
  {
  }

  lemma StepOf(s: Session, a: Label, r: Session, i: nat)
    requires LoopsStepped(s, a, r) && i < |s.calls|
    ensures LoopStepped(s, a, r, i) && i < |r.calls| && i < |r.phases| && i < |r.loops|
    ensures i < |s.phases| && i < |s.loops|
  {
    hide LoopStepped;
    assert |r.calls| == |r.phases| == |r.loops|;
  }

  /** One step more of the frame. */
  lemma FrameRunNext(s: Session, a: Label, r: Session, labels: seq<Label>, i: nat, evs: seq<Event<Response>>)
    returns (more: seq<Event<Response>>)
    requires Good(s) && Possible(s, a) && Good(r) && LoopsStepped(s, a, r) && i < |s.calls| && s.phases[i].Running?
    requires FrameRun(labels, i, s.phases[i], s.loops[i], evs)
    ensures IsRun(2, more) && Own(more) == FrameEvents(labels, i) + FrameEvent(a, i)
    ensures forall e <- more :: e.Reply? ==> Receive(e.r) in labels + [a]
    ensures if r.phases[i].Running? then After(2, more) == r.loops[i] else After(2, more).pc.Returned?
  {
    hide Good, Possible, FrameEvent, IsRun, After, Own, Cancelled, Replied, Step, Enabled, LoopsStepped, FrameEvents,
      Stepped;
    var own := OwnStep(s, a, i, evs);
    var l := Stepped(s.loops[i], FrameEvent(a, i));
    EventEnabled(s, a, i);
    RepliesOf(evs, FrameEvent(a, i), labels, a);
    StepOf(s, a, r, i);
    FitsPhase(r, i);
    more := own;
    if a.Receive? {
      WritesKeepReturned(l, a.response);
    } else {
      WritesKeepReturned(l, SearchResponse);
    }
    if !l.pc.Returned? && r.loops[i] != l {
      if a.Receive? && r.loops[i] == Replied(l, a.response) {
        OneMore(2, own, Reply(a.response));
        more := own + [Reply(a.response)];
      } else {
        OneMore(2, own, Event.Abort);
        more := own + [Event.Abort];
      }
    }
  }

  lemma NeverRunsAgain(s: Session, a: Label, i: nat)
    requires Good(s) && Possible(s, a) && i < |s.calls|
    ensures var r := Next(s, a);
      i < |r.calls| && i < |r.phases| && (!s.phases[i].Running? ==> !r.phases[i].Running?)
  {
    hide Good, Possible, Next;
    NextLater(s, a);
    assert PhaseLater(s.phases[i], Next(s, a).phases[i]);
  }

  /** The next state of a frame that was there. */
  lemma FrameRunStep(s: Session, a: Label, r: Session, labels: seq<Label>, i: nat, evs: seq<Event<Response>>)
    returns (more: seq<Event<Response>>)
    requires Good(s) && Possible(s, a) && r == Next(s, a) && Good(r) && LoopsStepped(s, a, r) && i < |s.calls|
    requires FrameRun(labels, i, s.phases[i], s.loops[i], evs)
    requires FrameEvents(labels + [a], i) == FrameEvents(labels, i) + FrameEvent(a, i)
    ensures i < |r.calls| && FrameRun(labels + [a], i, r.phases[i], r.loops[i], more)
  {
    hide Good, Possible, Next, FrameEvent, IsRun, After, Own, LoopsStepped, LoopStepped, FrameEvents, Enabled, Linked;
    StepOf(s, a, r, i);
    EventEnabled(s, a, i);
    NeverRunsAgain(s, a, i);
    if s.phases[i].Running? {
      more := FrameRunNext(s, a, r, labels, i, evs);
    } else {
      assert FrameEvent(a, i) == [];
      RepliesOf(evs, [], labels, a);
      assert evs + [] == evs;
      more := evs;
    }
  }

  /** A frame that this step opened. */
  lemma NewFrameRun(s: Session, a: Label, r: Session, labels: seq<Label>, i: nat)
    requires Good(r) && LoopsStepped(s, a, r) && |s.calls| <= i < |r.calls| && FrameEvents(labels, i) == []
    ensures FrameRun(labels, i, r.phases[i], r.loops[i], [])
  {
    FitsPhase(r, i);
    assert JustBegun(r.loops[i]);
    hide Good, LoopStepped, FrameEvents;
  }

  /** In every run the retry machine of a frame is that of one message sent with
      two attempts, in which the transmissions, expiries, failures and resumptions
      are exactly the labels of the run that name the frame, in their order, and
      every reply was received. */
  lemma {:induction false} RetryMachineOfFrame(states: seq<Session>, labels: seq<Label>, n: nat, i: nat)
    returns (evs: seq<Event<Response>>)
    requires IsHistory(states, labels) && n < |states| && i < |states[n].calls|
    ensures i < |states[n].phases| && i < |states[n].loops|
    ensures FrameRun(labels[..n], i, states[n].phases[i], states[n].loops[i], evs)
    decreases n
  {
    hide Good, Possible, Next, FrameRun, LoopsStepped, JobsStepped, FrameEvent;
    var m := n - 1;
    HistoryIsGood(states, labels, m);
    HistoryIsGood(states, labels, n);
    HistoryStep(states, labels, m);
    LoopsStep(states[m], labels[m]);
    LabelsMore(labels, m, i);
    var s, a, r := states[m], labels[m], states[n];
    assert labels[..n] == labels[..m] + [a];
    if i < |s.calls| {
      evs := RetryMachineOfFrame(states, labels, m, i);
      evs := FrameRunStep(s, a, r, labels[..m], i, evs);
    } else {
      NoEventsBefore(states, labels, m, i);
      NoEventBefore(s, a, i);
      NewFrameRun(s, a, r, labels[..n], i);
      evs := [];
    }
  }

  // ------------------------------------------------------------ jobs

  /** A confirmation with this frame was received. */
  predicate Delivers(a: Label, c: Cemi) {
    a.ReceiveTunnel? && a.tunnel.cemi == c
  }

  ghost predicate Delivered(labels: seq<Label>, c: Cemi) {
    exists a <- labels :: Delivers(a, c)
  }

  ghost predicate JobWrites(labels: seq<Label>, evs: seq<Event<Cemi>>) {
    forall e <- evs :: !e.Abort? && (e.Reply? ==> Delivered(labels, e.r))
  }

  /** `evs` is what happened to job `j`: the timer events are exactly the labels of
      the run that name it, nobody cancels it, and what it was answered was received. */
  ghost predicate JobRun(labels: seq<Label>, j: nat, l: Loop<Cemi>, evs: seq<Event<Cemi>>) {
    IsRun(2, evs) && Timed(evs) == JobEvents(labels, j) && JobWrites(labels, evs) && After(2, evs) == l
  }

  lemma JobEventEnabled(s: Session, a: Label, j: nat)
    requires Possible(s, a) && j < |s.jobs|
    ensures JobEvent(a, j) != [] ==>
      && |JobEvent(a, j)| == 1 && Enabled(s.jobs[j], JobEvent(a, j)[0])
      && (JobEvent(a, j)[0].Expire? || JobEvent(a, j)[0].Fail? || JobEvent(a, j)[0].Resume?)
  {
    hide MayStart, Throws, KeyOf, Parsable;
  }

  lemma NoJobEventBefore(s: Session, a: Label, j: nat)
    requires Possible(s, a) && j >= |s.jobs|
    ensures JobEvent(a, j) == []
  {
    hide MayStart, Throws, KeyOf, Parsable;
  }

  lemma JobsRemain(s: Session, a: Label)
    requires Good(s) && Possible(s, a)
    ensures |s.jobs| <= |Next(s, a).jobs|
  {
    LoopsStep(s, a);
    hide Good, Possible, Next, LoopsStepped, JobStepped;
  }

  lemma {:induction false} NoJobEventsBefore(states: seq<Session>, labels: seq<Label>, n: nat, j: nat)
    requires IsHistory(states, labels) && n < |states| && j >= |states[n].jobs|
    ensures JobEvents(labels[..n], j) == []
  {
    hide Good, Possible, Next, JobEvent;
    if n > 0 {
      HistoryIsGood(states, labels, n - 1);
      HistoryStep(states, labels, n - 1);
      JobsRemain(states[n - 1], labels[n - 1]);
      NoJobEventsBefore(states, labels, n - 1, j);
      LabelsMore(labels, n - 1, j);
      NoJobEventBefore(states[n - 1], labels[n - 1], j);
    }
  }

  lemma MoreWrites(labels: seq<Label>, evs: seq<Event<Cemi>>, a: Label, ev: Event<Cemi>)
    requires JobWrites(labels, evs) && !ev.Abort? && (ev.Reply? ==> Delivers(a, ev.r))
    ensures JobWrites(labels + [a], evs) && JobWrites(labels + [a], evs + [ev])
  {
    forall e <- evs | e.Reply?
      ensures Delivered(labels + [a], e.r)
    {
      var b :| b in labels && Delivers(b, e.r);
      assert b in labels + [a];
    }
    if ev.Reply? {
      assert a in labels + [a];
    }
  }

  /** One event more of the job in the step `a`. */
  lemma JobRunMore(labels: seq<Label>, a: Label, l: Loop<Cemi>, evs: seq<Event<Cemi>>, ev: Event<Cemi>)
    requires IsRun(2, evs) && After(2, evs) == l && JobWrites(labels, evs)
    requires Enabled(l, ev) && !ev.Abort? && (ev.Reply? ==> Delivers(a, ev.r))
    ensures var more := evs + [ev];
      && IsRun(2, more) && After(2, more) == Step(l, ev) && JobWrites(labels + [a], more)
      && Timed(more) == Timed(evs) + if ev.Reply? || ev.SendDone? then [] else [ev]
  {
    hide IsRun, After, Enabled, Step, JobWrites, Timed;
    OneMore(2, evs, ev);
    MoreWrites(labels, evs, a, ev);
  }

  lemma TimerStillStops(evs: seq<Event<Cemi>>, a: Label, labels: seq<Label>)
    requires JobWrites(labels, evs)
    ensures JobWrites(labels + [a], evs)
  {
    MoreWrites(labels, evs, a, SendDone);
  }

  lemma OwnJobStep(s: Session, a: Label, labels: seq<Label>, j: nat, evs: seq<Event<Cemi>>)
    returns (more: seq<Event<Cemi>>)
    requires Possible(s, a) && j < |s.jobs| && JobRun(labels, j, s.jobs[j], evs)
    ensures IsRun(2, more) && After(2, more) == Stepped(s.jobs[j], JobEvent(a, j)) && JobWrites(labels + [a], more)
    ensures Timed(more) == JobEvents(labels, j) + JobEvent(a, j)
  {
    JobEventEnabled(s, a, j);
    hide Possible, JobEvent, IsRun, After, Timed, Step, Enabled, JobWrites, JobEvents;
    if JobEvent(a, j) != [] {
      JobRunMore(labels, a, s.jobs[j], evs, JobEvent(a, j)[0]);
      assert JobEvent(a, j) == [JobEvent(a, j)[0]];
      more := evs + JobEvent(a, j);
    } else {
      TimerStillStops(evs, a, labels);
      more := evs;
    }
  }

  lemma JobStepMeaning(l: Loop<Cemi>, c: Cemi)
    ensures Step(l, SendDone) == Transmitted(l) && Step(l, Reply(c)) == Replied(l, c)
    ensures l.pc.Transmitting? ==> Enabled(l, SendDone)
    ensures !l.pc.Returned? ==> Enabled(l, Reply(c))
  {
  }

  lemma MoreTwice(labels: seq<Label>, a: Label, l: Loop<Cemi>, evs: seq<Event<Cemi>>, ev: Event<Cemi>)
    requires IsRun(2, evs) && After(2, evs) == l && JobWrites(labels + [a], evs)
    requires Enabled(l, ev) && (ev.SendDone? || (ev.Reply? && Delivers(a, ev.r)))
    ensures var more := evs + [ev];
      && IsRun(2, more) && After(2, more) == Step(l, ev) && JobWrites(labels + [a], more) && Timed(more) == Timed(evs)
  {
    hide IsRun, After, Enabled, Step, Timed;
    OneMore(2, evs, ev);
    if ev.Reply? {
      assert a in labels + [a];
    }
    hide Delivers;
  }

  lemma JobRunStep(s: Session, a: Label, r: Session, labels: seq<Label>, j: nat, evs: seq<Event<Cemi>>)
    returns (more: seq<Event<Cemi>>)
    requires Possible(s, a) && JobsStepped(s, a, r) && j < |s.jobs| && JobRun(labels, j, s.jobs[j], evs)
    requires JobEvents(labels + [a], j) == JobEvents(labels, j) + JobEvent(a, j)
    ensures j < |r.jobs| && JobRun(labels + [a], j, r.jobs[j], more)
  {
    more := OwnJobStep(s, a, labels, j, evs);
    var l := Stepped(s.jobs[j], JobEvent(a, j));
    assert JobStepped(s, a, r, j);
    hide Possible, JobsStepped, JobEvent, IsRun, After, Timed, Step, Enabled, JobWrites, JobEvents, Transmitted,
      Replied, Stepped;
    if r.jobs[j] != l {
      if a.ReceiveTunnel? && !l.pc.Returned? && r.jobs[j] == Replied(l, a.tunnel.cemi) {
        JobStepMeaning(l, a.tunnel.cemi);
        MoreTwice(labels, a, l, more, Reply(a.tunnel.cemi));
        more := more + [Reply(a.tunnel.cemi)];
      } else {
        JobStepMeaning(l, s.cemis[j]);
        MoreTwice(labels, a, l, more, SendDone);
        more := more + [SendDone];
      }
    }
  }

  lemma NewJobRun(s: Session, a: Label, r: Session, labels: seq<Label>, j: nat)
    requires JobsStepped(s, a, r) && |s.jobs| <= j < |r.jobs| && JobEvents(labels, j) == []
    ensures JobRun(labels, j, r.jobs[j], [])
  {
    assert JustBegun(r.jobs[j]);
    hide JobStepped, JobEvents;
  }

  /** In every run the retry machine of a group request is that of one message with
      two attempts, in which expiries, failures and resumptions are exactly the
      labels of the run that name it, and every confirmation was received. */
  lemma {:induction false} RetryMachineOfJob(states: seq<Session>, labels: seq<Label>, n: nat, j: nat)
    returns (evs: seq<Event<Cemi>>)
    requires IsHistory(states, labels) && n < |states| && j < |states[n].jobs|
    ensures JobRun(labels[..n], j, states[n].jobs[j], evs)
    decreases n
  {
    hide Good, Possible, Next, JobRun, LoopsStepped, JobsStepped, JobEvent;
    var m := n - 1;
    HistoryIsGood(states, labels, m);
    HistoryStep(states, labels, m);
    LoopsStep(states[m], labels[m]);
    LabelsMore(labels, m, j);
    var s, a, r := states[m], labels[m], states[n];
    assert labels[..n] == labels[..m] + [a];
    if j < |s.jobs| {
      evs := RetryMachineOfJob(states, labels, m, j);
      evs := JobRunStep(s, a, r, labels[..m], j, evs);
    } else {
      NoJobEventsBefore(states, labels, m, j);
      NoJobEventBefore(s, a, j);
      NewJobRun(s, a, r, labels[..n], j);
      evs := [];
    }
  }

  // ------------------------------------------------------------ counting expiries and failures

  lemma {:induction false} OwnCounts<R>(evs: seq<Event<R>>)
    ensures Expiries(Own(evs)) == Expiries(evs) == Expiries(Timed(evs))
    ensures Failures(Own(evs)) == Failures(evs) == Failures(Timed(evs))
  {
    if evs != [] {
      OwnCounts(Front(evs));
      OneMore(0, Own(Front(evs)), Last(evs));
      OneMore(0, Timed(Front(evs)), Last(evs));
      assert Own(Front(evs)) + [] == Own(Front(evs)) && Timed(Front(evs)) + [] == Timed(Front(evs));
    }
  }

  lemma CountFrame(evs: seq<Event<Response>>, a: Label, i: nat)
    ensures var more := evs + FrameEvent(a, i);
      && Expiries(more) == Expiries(evs) + multiset{a}[FrameExpire(i)]
      && Failures(more) == Failures(evs) + multiset{a}[FrameFail(i)]
  {
    hide Expiries, Failures;
    if FrameEvent(a, i) == [] {
      assert evs + [] == evs;
    } else {
      OneMore(0, evs, FrameEvent(a, i)[0]);
    }
  }

  lemma CountJob(evs: seq<Event<Cemi>>, a: Label, j: nat)
    ensures var more := evs + JobEvent(a, j);
      && Expiries(more) == Expiries(evs) + multiset{a}[JobExpire(j)]
      && Failures(more) == Failures(evs) + multiset{a}[JobFail(j)]
  {
    hide Expiries, Failures;
    if JobEvent(a, j) == [] {
      assert evs + [] == evs;
    } else {
      OneMore(0, evs, JobEvent(a, j)[0]);
    }
  }

  lemma {:induction false} CountLabels(labels: seq<Label>, i: nat)
    ensures Expiries(FrameEvents(labels, i)) == multiset(labels)[FrameExpire(i)]
    ensures Failures(FrameEvents(labels, i)) == multiset(labels)[FrameFail(i)]
    ensures Expiries(JobEvents(labels, i)) == multiset(labels)[JobExpire(i)]
    ensures Failures(JobEvents(labels, i)) == multiset(labels)[JobFail(i)]
  {
    hide FrameEvent, JobEvent;
    if labels != [] {
      CountLabels(Front(labels), i);
      CountFrame(FrameEvents(Front(labels), i), Last(labels), i);
      CountJob(JobEvents(Front(labels), i), Last(labels), i);
      assert labels == Front(labels) + [Last(labels)];
    }
  }

  /** A message that was sent with two attempts and waits in the queue of the event
      loop: what its past says about its next step. */
  lemma QueuedAccount<R>(evs: seq<Event<R>>, l: Loop<R>)
    requires IsRun(2, evs) && After(2, evs) == l && l.pc.Queued?
    ensures Judged(l, l.pc.completion) == Timeout <==> Expiries(evs) == 2
    ensures Judged(l, l.pc.completion) == Sending <==> l.state == Sending && Expiries(evs) == 1 && Failures(evs) == 0
    ensures Judged(l, l.pc.completion) == Sending ==> l.attempts == 1
    ensures Expiries(evs) <= 2 && Failures(evs) <= 1
  {
    RunAccounted(2, evs);
    CallsBounded(2, evs);
  }

  /** Frame `i` is sent once more, as it was, and nothing else happens. */
  predicate Resends(s: Session, r: Session, i: nat)
    requires i < |s.calls|
  {
    var q := s.calls[i].request;
    r == s.(loops := s.loops[i := Loop(Sending, 0, Transmitting, s.loops[i].response)],
            wire := s.wire + [Sent(if q.Tunnel? then DataSocket else ControlSocket, q, i)])
  }

  lemma ResumedResends(s: Session, i: nat)
    requires Good(s) && i < |s.calls| && s.loops[i].pc.Queued?
    requires Judged(s.loops[i], s.loops[i].pc.completion) == Sending ==> s.loops[i].attempts == 1
    ensures Resends(s, FrameResumed(s, i), i) <==> Judged(s.loops[i], s.loops[i].pc.completion) == Sending
  {
    FrameResumedSettles(s, i);
    hide Good, LoopsSettle, JobsSettle, ItemsGo;
    if Judged(s.loops[i], s.loops[i].pc.completion) != Sending {
      var d := s.wire + [Sent(SocketFor(s.calls[i].request), s.calls[i].request, i)];
      assert |d| == |s.wire| + 1;
    }
    hide FrameResumed;
  }

  /** A frame that neither sends again nor times out returns. */
  lemma ResumedReturns(s: Session, i: nat)
    requires Good(s) && i < |s.calls| && s.loops[i].pc.Queued?
    requires Judged(s.loops[i], s.loops[i].pc.completion) != Sending && !TimesOut(s, i)
    ensures var r := FrameResumed(s, i); i < |r.phases| && r.phases[i].Done?
  {
    AfterWaiting(s, i);
    hide Good, ReturnFrame, Close, WithLoop, Transmit, MayReturn, MayClose;
    ReturnedIsDone(WithLoop(s, i, AfterWait(s.loops[i], s.loops[i].pc.completion)), i);
  }

  /** A frame whose datagram was handed over waits, unless it was answered or
      cancelled meanwhile: then it returns. */
  lemma HandedOver(states: seq<Session>, labels: seq<Label>, n: nat, i: nat)
    requires IsHistory(states, labels) && n < |labels| && labels[n] == FrameSendDone(i)
    ensures i < |states[n].loops| && i < |states[n + 1].phases|
    ensures var s, r := states[n], states[n + 1];
      if s.loops[i].state == Sending then r == s.(loops := s.loops[i := s.loops[i].(pc := Waiting)])
      else r.phases[i].Done?
  {
    HistoryIsGood(states, labels, n);
    HistoryStep(states, labels, n);
    var s := states[n];
    assert |s.loops| == |s.calls| == |s.phases|;
    AfterSending(s, i);
    FrameFits(s, i);
    hide IsHistory, Good, ReturnFrame, MayReturn;
    if s.loops[i].state != Sending {
      ReturnedIsDone(WithLoop(s, i, Transmitted(s.loops[i])), i);
    }
  }

  lemma FrameExpiries(states: seq<Session>, labels: seq<Label>, n: nat, i: nat) returns (evs: seq<Event<Response>>)
    requires IsHistory(states, labels) && n < |states| && i < |states[n].calls| && states[n].loops[i].pc.Queued?
    ensures IsRun(2, evs) && After(2, evs) == states[n].loops[i]
    ensures Expiries(evs) == multiset(labels[..n])[FrameExpire(i)]
    ensures Failures(evs) == multiset(labels[..n])[FrameFail(i)]
  {
    evs := RetryMachineOfFrame(states, labels, n, i);
    HistoryIsGood(states, labels, n);
    FitsPhase(states[n], i);
    hide IsHistory, Good, IsRun, After, Expiries, Failures, FrameEvents, Own;
    OwnCounts(evs);
    CountLabels(labels[..n], i);
  }

  /** In every run a request times out exactly when its wait has expired twice, and
      is sent a second time, unchanged, exactly when its wait has expired once, has
      not failed, and nothing was answered or cancelled.  Otherwise it returns. */
  lemma TimesOutExactly(states: seq<Session>, labels: seq<Label>, n: nat, i: nat)
    requires IsHistory(states, labels) && n < |labels| && labels[n] == FrameResume(i)
    ensures i < |states[n].calls|
    ensures var expiries := multiset(labels[..n])[FrameExpire(i)]; var failures := multiset(labels[..n])[FrameFail(i)];
      && expiries <= 2 && failures <= 1
      && (TimesOut(states[n], i) <==> expiries == 2)
      && (Resends(states[n], states[n + 1], i) <==>
            expiries == 1 && failures == 0 && states[n].loops[i].state == Sending)
      && (!TimesOut(states[n], i) && !Resends(states[n], states[n + 1], i) ==>
            i < |states[n + 1].phases| && states[n + 1].phases[i].Done?)
  {
    HistoryIsGood(states, labels, n);
    HistoryStep(states, labels, n);
    var s := states[n];
    assert states[n + 1] == FrameResumed(s, i);
    hide IsHistory, Good, FrameResumed, Next;
    var evs := FrameExpiries(states, labels, n, i);
    QueuedAccount(evs, s.loops[i]);
    ResumedResends(s, i);
    if Judged(s.loops[i], s.loops[i].pc.completion) != Sending && !TimesOut(s, i) {
      ResumedReturns(s, i);
    }
  }

  lemma JobExpiries(states: seq<Session>, labels: seq<Label>, n: nat, j: nat) returns (evs: seq<Event<Cemi>>)
    requires IsHistory(states, labels) && n < |states| && j < |states[n].jobs|
    ensures IsRun(2, evs) && After(2, evs) == states[n].jobs[j] && JobWrites(labels[..n], evs)
    ensures Expiries(evs) == multiset(labels[..n])[JobExpire(j)]
    ensures Failures(evs) == multiset(labels[..n])[JobFail(j)]
  {
    evs := RetryMachineOfJob(states, labels, n, j);
    hide IsHistory, IsRun, After, Expiries, Failures, JobEvents, Timed;
    OwnCounts(evs);
    CountLabels(labels[..n], j);
  }

  /** The job opens its second request, with the sequence number and the channel of
      this moment. */
  predicate Retries(s: Session, r: Session, j: nat)
    requires j < |s.jobs|
  {
    && |s.cemis| == |s.jobs| && |r.calls| == |s.calls| + 1
    && var q := Tunnel(TunnelRequest(ConnectionHeader(s.channelId, s.sequence, 0), s.cemis[j]));
       && r.calls[|s.calls|].request == q && r.calls[|s.calls|].caller == BySend(j)
       && r.wire == s.wire + [Sent(DataSocket, q, |s.calls|)]
       && r.sequence == s.sequence + 1 && r.sendItems == s.sendItems + [|s.calls|]
       && r.jobs == s.jobs[j := Loop(Sending, 0, Transmitting, s.jobs[j].response)]
  }

  /** The job ends: its state is the verdict, its key is free. */
  predicate Ends(s: Session, r: Session, j: nat)
    requires j < |s.jobs| && s.jobs[j].pc.Queued?
  {
    && |s.cemis| == |s.jobs| && |r.jobs| == |s.jobs| && r.jobs[j].pc.Returned? && KeyOf(s.cemis[j]) !in r.requests
    && r.jobs[j].state == Judged(s.jobs[j], s.jobs[j].pc.completion)
    && r.wire == s.wire && r.calls == s.calls && r.sendItems == s.sendItems && r.sequence == s.sequence
  }

  lemma JobRetries(s: Session, j: nat, l: Loop<Cemi>)
    requires j < |s.jobs| && s.jobs[j].pc.Queued? && l == AfterWait(s.jobs[j], s.jobs[j].pc.completion)
    requires Judged(s.jobs[j], s.jobs[j].pc.completion) == Sending && s.jobs[j].attempts == 1
    ensures Retries(s, Send(JobStep(s, j, l), j), j) && l.pc.Transmitting?
  {
    assert |s.cemis| == |s.jobs|;
    assert l == Loop(Sending, 0, Transmitting, s.jobs[j].response);
    hide KeyOf, Linked, Judged, LinkedCall;
  }

  lemma JobEnds(s: Session, j: nat, l: Loop<Cemi>)
    requires j < |s.jobs| && s.jobs[j].pc.Queued? && l == AfterWait(s.jobs[j], s.jobs[j].pc.completion)
    requires Judged(s.jobs[j], s.jobs[j].pc.completion) != Sending
    ensures Ends(s, JobStep(s, j, l), j) && !l.pc.Transmitting?
  {
    assert |s.cemis| == |s.jobs|;
    hide KeyOf, Linked, Judged;
  }

  lemma JobResumedMeaning(s: Session, j: nat)
    requires j < |s.jobs| && s.jobs[j].pc.Queued?
    requires Judged(s.jobs[j], s.jobs[j].pc.completion) == Sending ==> s.jobs[j].attempts == 1
    ensures if Judged(s.jobs[j], s.jobs[j].pc.completion) == Sending then Retries(s, JobResumed(s, j), j)
            else Ends(s, JobResumed(s, j), j)
  {
    var l := AfterWait(s.jobs[j], s.jobs[j].pc.completion);
    hide Linked, Judged, AfterWait, JobStep, Send, Retries, Ends;
    if Judged(s.jobs[j], s.jobs[j].pc.completion) == Sending {
      JobRetries(s, j, l);
    } else {
      JobEnds(s, j, l);
    }
  }

  /** In every run a group request opens its second tunnelling request exactly when
      its wait has expired once, has not failed and was not confirmed; otherwise it
      ends, as timed out exactly when its wait has expired twice. */
  lemma JobTimesOutExactly(states: seq<Session>, labels: seq<Label>, n: nat, j: nat)
    requires IsHistory(states, labels) && n < |labels| && labels[n] == JobResume(j)
    ensures j < |states[n].jobs| && states[n].jobs[j].pc.Queued?
    ensures var expiries := multiset(labels[..n])[JobExpire(j)]; var failures := multiset(labels[..n])[JobFail(j)];
      && expiries <= 2 && failures <= 1
      && if expiries == 1 && failures == 0 && states[n].jobs[j].state == Sending
         then Retries(states[n], states[n + 1], j)
         else Ends(states[n], states[n + 1], j) && (states[n + 1].jobs[j].state == Timeout <==> expiries == 2)
  {
    HistoryStep(states, labels, n);
    var s := states[n];
    assert states[n + 1] == JobResumed(s, j);
    hide IsHistory, JobResumed, Next;
    var evs := JobExpiries(states, labels, n, j);
    QueuedAccount(evs, s.jobs[j]);
    hide IsRun, After, Judged, Expiries, Failures;
    JobResumedMeaning(s, j);
  }

  /** In every run a group request that has ended timed out exactly when its wait
      expired twice, failed exactly when a wait failed before that, and otherwise
      ended with a confirmation that was received. */
  lemma JobOutcome(states: seq<Session>, labels: seq<Label>, n: nat, j: nat)
    requires IsHistory(states, labels) && n < |states| && j < |states[n].jobs| && states[n].jobs[j].pc.Returned?
    ensures var expiries := multiset(labels[..n])[JobExpire(j)]; var failures := multiset(labels[..n])[JobFail(j)];
      var l := states[n].jobs[j];
      && (l.state == Timeout <==> expiries == 2)
      && (l.state == Error <==> expiries < 2 && failures > 0)
      && (l.state != Timeout && l.state != Error ==>
            l.state == Okay && l.response.Some? && Delivered(labels[..n], l.response.value))
  {
    var evs := JobExpiries(states, labels, n, j);
    Outcome(2, evs);
    hide IsHistory, IsRun, After, Expiries, Failures;
    LastWriteDelivered(labels[..n], evs);
  }

  lemma {:induction false} LastWriteDelivered(labels: seq<Label>, evs: seq<Event<Cemi>>)
    requires JobWrites(labels, evs)
    ensures LastWrite(evs) == Sending || LastWrite(evs) == Okay
    ensures LastWrite(evs) == Okay ==> LastReply(evs).Some? && Delivered(labels, LastReply(evs).value)
  {
    hide Delivered;
    if evs != [] {
      assert Last(evs) in evs;
      assert forall e <- Front(evs) :: e in evs;
      LastWriteDelivered(labels, Front(evs));
    }
  }

  // ------------------------------------------------------------ a request that nobody answers

  function LoopAt(attempts: uint32, pc: Pc): Loop<Response> {
    Loop(Sending, attempts, pc, None)
  }

  /** Handed to the socket, and then no answer: the frame waits and the wait expires. */
  lemma WaitExpires(s: Session, i: nat, k: uint32)
    requires i < |s.calls| && s.loops[i] == LoopAt(k, Transmitting)
    ensures Leads(s, [FrameSendDone(i), FrameExpire(i)], WithLoop(s, i, LoopAt(k, Queued(Expired))))
  {
    var t := WithLoop(s, i, LoopAt(k, Waiting));
    var r := WithLoop(s, i, LoopAt(k, Queued(Expired)));
    SendDoneStep(s, i);
    assert Next(s, FrameSendDone(i)) == t;
    assert Possible(t, FrameExpire(i)) && Next(t, FrameExpire(i)) == r by {
      assert WithLoop(t, i, LoopAt(k, Queued(Expired))) == r;
    }
    hide Leads, Possible, Next;
    LeadsOne(s, FrameSendDone(i));
    LeadsNext(s, [FrameSendDone(i)], t, FrameExpire(i));
    assert [FrameSendDone(i)] + [FrameExpire(i)] == [FrameSendDone(i), FrameExpire(i)];
  }

  /** The state after the second attempt of frame `i` was made. */
  function SentAgain(s: Session, i: nat): Session
    requires i < |s.calls|
  {
    Transmit(WithLoop(s, i, LoopAt(0, Transmitting)), i)
  }

  lemma LoopTwice(s: Session, i: nat, l: Loop<Response>, m: Loop<Response>)
    requires i < |s.calls|
    ensures WithLoop(WithLoop(s, i, l), i, m) == WithLoop(s, i, m)
  {
  }

  lemma ResumedAgain(s: Session, i: nat)
    requires i < |s.calls| && s.loops[i] == LoopAt(1, Queued(Expired))
    ensures FrameResumed(s, i) == SentAgain(s, i) && s.loops[i].pc.Queued?
  {
    hide Close, ReturnFrame, Linked;
  }

  lemma QueuedResends(s: Session, i: nat)
    requires i < |s.calls|
    ensures var t := WithLoop(s, i, LoopAt(1, Queued(Expired)));
      Possible(t, FrameResume(i)) && Next(t, FrameResume(i)) == SentAgain(s, i)
  {
    var t := WithLoop(s, i, LoopAt(1, Queued(Expired)));
    assert t.loops[i] == LoopAt(1, Queued(Expired));
    LoopTwice(s, i, LoopAt(1, Queued(Expired)), LoopAt(0, Transmitting));
    hide Possible, Next, FrameResumed, WithLoop, Transmit, Linked, LoopAt;
    ResumedAgain(t, i);
    ResumeStep(t, i);
  }

  lemma ExpiryResends(s: Session, i: nat)
    requires i < |s.calls| && s.loops[i] == LoopAt(1, Transmitting)
    ensures Leads(s, [FrameSendDone(i), FrameExpire(i), FrameResume(i)], SentAgain(s, i))
  {
    hide Leads, Possible, Next, WithLoop, SentAgain, Linked;
    WaitExpires(s, i, 1);
    QueuedResends(s, i);
    var first := [FrameSendDone(i), FrameExpire(i)];
    LeadsNext(s, first, WithLoop(s, i, LoopAt(1, Queued(Expired))), FrameResume(i));
    assert first + [FrameResume(i)] == [FrameSendDone(i), FrameExpire(i), FrameResume(i)];
  }

  /** The labels of two waits that expire. */
  function Unanswered(i: nat): seq<Label> {
    [FrameSendDone(i), FrameExpire(i), FrameResume(i)] + [FrameSendDone(i), FrameExpire(i)] + [FrameResume(i)]
  }

  /** From every state that satisfies the invariant, a request that was just opened
      and whose two waits expire is sent once more as it was, and then a disconnect
      request for the current channel goes out, which the request awaits. */
  lemma UnansweredTimesOut(s: Session, i: nat) returns (r: Session)
    requires Good(s) && !s.closingDown && i < |s.calls| && s.loops[i] == LoopAt(1, Transmitting)
    ensures Leads(s, Unanswered(i), r)
    ensures var q := s.calls[i].request;
      r.wire == s.wire + [Sent(if q.Tunnel? then DataSocket else ControlSocket, q, i)]
        + [Sent(ControlSocket, Disconnect(s.channelId), |s.calls|)]
    ensures r.closingDown && i < |r.phases| && r.phases[i].ClosingDown?
  {
    ExpiryResends(s, i);
    var t := SentAgain(s, i);
    WaitExpires(t, i, 0);
    var u := WithLoop(t, i, LoopAt(0, Queued(Expired)));
    assert TimesOut(u, i) && u.calls == s.calls && u.wire == t.wire && u.channelId == s.channelId && !u.closingDown;
    hide Leads, Possible, Next, Good, SentAgain, FrameResumed, TimesOut;
    var first := [FrameSendDone(i), FrameExpire(i), FrameResume(i)];
    var second := [FrameSendDone(i), FrameExpire(i)];
    LeadsOn(s, first, t, second, u);
    LeadsGood(s, first + second, u);
    TimeOutCloses(u, i);
    ResumeStep(u, i);
    LeadsNext(s, first + second, u, FrameResume(i));
    r := FrameResumed(u, i);
    TwoDatagrams(s, i);
  }

  lemma TwoDatagrams(s: Session, i: nat)
    requires i < |s.calls|
    ensures var q := s.calls[i].request;
      SentAgain(s, i).wire == s.wire + [Sent(if q.Tunnel? then DataSocket else ControlSocket, q, i)]
  {
  }
}
