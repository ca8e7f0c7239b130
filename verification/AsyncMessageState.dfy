/** The retry machine of one request: the coroutine `send` of
    `AsyncMessageState`, cut at its two suspension points. */
module AsyncMessageStates {
  import opened Wrappers

  type uint32 = x: int | 0 <= x < 0x1_0000_0000

  datatype MsgState = Initial | Okay | Sending | Timeout | Canceled | Error

  /** How a wait on the timer ended. */
  datatype Completion = Expired | Aborted | Failed

  /** Where the coroutine stands.  A completed wait is queued until the event
      loop resumes the coroutine. */
  datatype Pc = Idle | Transmitting | Waiting | Queued(completion: Completion) | Returned

  datatype Loop<R> = Loop(state: MsgState, attempts: uint32, pc: Pc, response: Option<R>)

  /** Unsigned decrement wraps around. */
  function Decrement(n: uint32): uint32 {
    if n == 0 then 0xFFFF_FFFF else n - 1
  }

  function Fresh<R>(): Loop<R> {
    Loop(Initial, 0, Idle, None)
  }

  /** From the call of `send` to its first suspension inside `sendMethod`. */
  function Begin<R>(l: Loop<R>, k: uint32): Loop<R> {
    l.(state := Sending, attempts := Decrement(k), pc := Transmitting)
  }

  /** Cancelling the timer aborts a wait that is still pending, and only such a one. */
  function TimerCancelled(pc: Pc): Pc {
    if pc.Waiting? then Queued(Aborted) else pc
  }

  function Replied<R>(l: Loop<R>, r: R): Loop<R> {
    l.(state := Okay, pc := TimerCancelled(l.pc), response := Some(r))
  }

  function Cancelled<R>(l: Loop<R>): Loop<R> {
    l.(state := Canceled, pc := TimerCancelled(l.pc))
  }

  /** `sendMethod` has completed. */
  function Transmitted<R>(l: Loop<R>): Loop<R> {
    if l.state == Okay || l.state == Canceled then l.(pc := Returned) else l.(pc := Waiting)
  }

  function TimerDone<R>(l: Loop<R>, completion: Completion): Loop<R> {
    l.(pc := Queued(completion))
  }

  /** The state that the code after the wait stores. */
  function Judged<R>(l: Loop<R>, completion: Completion): MsgState {
    if completion == Expired && l.attempts == 0 then Timeout
    else if completion == Failed then Error
    else l.state
  }

  /** The coroutine runs on after the wait, to its next suspension or its end. */
  function AfterWait<R>(l: Loop<R>, completion: Completion): Loop<R> {
    var state := Judged(l, completion);
    if state == Sending then l.(attempts := Decrement(l.attempts), pc := Transmitting)
    else l.(state := state, pc := Returned)
  }

  // ------------------------------------------------------------ runs

  /** What the event loop and the session do to one message. */
  datatype Event<R> = SendDone | Expire | Fail | Resume | Reply(r: R) | Abort

  predicate Enabled<R>(l: Loop<R>, ev: Event<R>) {
    match ev
    case SendDone => l.pc.Transmitting?
    case Expire => l.pc.Waiting?
    case Fail => l.pc.Waiting?
    case Resume => l.pc.Queued?
    case Reply(_) => !l.pc.Returned?
    case Abort => !l.pc.Returned?
  }

  function Step<R>(l: Loop<R>, ev: Event<R>): Loop<R> {
    match ev
    case SendDone => Transmitted(l)
    case Expire => TimerDone(l, Expired)
    case Fail => TimerDone(l, Failed)
    case Resume => if l.pc.Queued? then AfterWait(l, l.pc.completion) else l
    case Reply(r) => Replied(l, r)
    case Abort => Cancelled(l)
  }

  function Front<T>(s: seq<T>): seq<T>
    requires s != []
  {
    s[..|s| - 1]
  }

  function Last<T>(s: seq<T>): T
    requires s != []
  {
    s[|s| - 1]
  }

  /** The message after `send(k)` was called and `evs` happened. */
  function After<R>(k: uint32, evs: seq<Event<R>>): Loop<R> {
    if evs == [] then Begin(Fresh(), k) else Step(After(k, Front(evs)), Last(evs))
  }

  /** Every event was possible when it happened. */
  predicate IsRun<R>(k: uint32, evs: seq<Event<R>>) {
    evs != [] ==> IsRun(k, Front(evs)) && Enabled(After(k, Front(evs)), Last(evs))
  }

  /** The number of times `sendMethod` was called. */
  function Calls<R>(k: uint32, evs: seq<Event<R>>): nat {
    if evs == [] then 1
    else
      Calls(k, Front(evs)) +
      if !After(k, Front(evs)).pc.Transmitting? && After(k, evs).pc.Transmitting? then 1 else 0
  }

  function Expiries<R>(evs: seq<Event<R>>): nat {
    if evs == [] then 0 else Expiries(Front(evs)) + if Last(evs).Expire? then 1 else 0
  }

  function Failures<R>(evs: seq<Event<R>>): nat {
    if evs == [] then 0 else Failures(Front(evs)) + if Last(evs).Fail? then 1 else 0
  }

  /** What the last reply or cancel wrote; `Sending` when there was none. */
  function LastWrite<R>(evs: seq<Event<R>>): MsgState {
    if evs == [] then Sending
    else if Last(evs).Reply? then Okay
    else if Last(evs).Abort? then Canceled
    else LastWrite(Front(evs))
  }

  /** The payload of the last reply. */
  function LastReply<R>(evs: seq<Event<R>>): Option<R> {
    if evs == [] then None
    else if Last(evs).Reply? then Some(Last(evs).r)
    else LastReply(Front(evs))
  }

  /** The events of the coroutine itself, as opposed to replies and cancels. */
  function OwnSteps<R>(evs: seq<Event<R>>): nat {
    if evs == [] then 0
    else OwnSteps(Front(evs)) + if Last(evs).Reply? || Last(evs).Abort? then 0 else 1
  }

  /** How often `send(k)` may transmit: zero wraps around. */
  function Budget(k: uint32): nat {
    if k == 0 then 0x1_0000_0000 else k
  }

  // ------------------------------------------------------------ the invariant

  /** What holds of a message between its steps, whatever happened to it. */
  predicate Sound<R>(l: Loop<R>) {
    match l.pc
    case Idle => l.state != Sending
    case Transmitting => l.state == Sending || l.state == Okay || l.state == Canceled
    case Waiting => l.state == Sending
    case Queued(Aborted) => l.state == Okay || l.state == Canceled
    case Queued(_) => l.state == Sending || l.state == Okay || l.state == Canceled
    case Returned => l.state != Sending
  }

  lemma StepSound<R>(l: Loop<R>, ev: Event<R>)
    requires Sound(l) && Enabled(l, ev)
    ensures Sound(Step(l, ev))
    ensures Step(l, ev).state == Sending ==> l.state == Sending
    ensures !l.pc.Transmitting? && Step(l, ev).pc.Transmitting? ==>
      ev.Resume? && l.state == Sending && l.pc == Queued(Expired) && l.attempts > 0
  {
  }

  /** The account of a run: what was spent, what is left, and what was written. */
  ghost predicate Accounted<R>(k: uint32, evs: seq<Event<R>>) {
    var l := After(k, evs);
    var queuedExpiry := if l.pc == Queued(Expired) then 1 else 0;
    var queuedFailure := if l.pc == Queued(Failed) then 1 else 0;
    && Sound(l)
    && Calls(k, evs) + l.attempts == Budget(k)
    && l.response == LastReply(evs)
    && (!l.pc.Returned? ==>
         && l.state == LastWrite(evs)
         && Expiries(evs) == Calls(k, evs) - 1 + queuedExpiry
         && Failures(evs) == queuedFailure)
    && (l.pc.Returned? ==>
         if Expiries(evs) == Budget(k) then l.state == Timeout
         else if Failures(evs) > 0 then l.state == Error
         else l.state == LastWrite(evs) && l.state != Sending)
    && Expiries(evs) <= Budget(k)
    && Failures(evs) <= 1
  }

  lemma {:induction false} RunAccounted<R>(k: uint32, evs: seq<Event<R>>)
    requires IsRun(k, evs)
    ensures Accounted(k, evs)
  {
    if evs != [] {
      RunAccounted(k, Front(evs));
      StepSound(After(k, Front(evs)), Last(evs));
    }
  }

  // ------------------------------------------------------------ the theorems

  /** `send(k)` calls `sendMethod` at least once and at most `k` times. */
  lemma CallsBounded<R>(k: uint32, evs: seq<Event<R>>)
    requires IsRun(k, evs)
    ensures 1 <= Calls(k, evs) <= Budget(k)
  {
    RunAccounted(k, evs);
    CallsPositive(k, evs);
  }

  lemma {:induction false} CallsPositive<R>(k: uint32, evs: seq<Event<R>>)
    ensures Calls(k, evs) >= 1
  {
    if evs != [] {
      CallsPositive(k, Front(evs));
    }
  }

  /** The outcome of every run: a time-out exactly when the last permitted wait
      expired, whatever was replied afterwards; else an error exactly when a
      wait failed; else the last reply or cancel, and there was one. */
  lemma Outcome<R>(k: uint32, evs: seq<Event<R>>)
    requires IsRun(k, evs) && After(k, evs).pc.Returned?
    ensures var l := After(k, evs);
      && (l.state == Timeout <==> Expiries(evs) == Budget(k))
      && (l.state == Error <==> Expiries(evs) < Budget(k) && Failures(evs) > 0)
      && (l.state != Timeout && l.state != Error ==> l.state == LastWrite(evs) && LastWrite(evs) != Sending)
      && l.response == LastReply(evs)
  {
    RunAccounted(k, evs);
    WriteIsReplyOrCancel(evs);
  }

  lemma {:induction false} WriteIsReplyOrCancel<R>(evs: seq<Event<R>>)
    ensures LastWrite(evs) == Sending || LastWrite(evs) == Okay || LastWrite(evs) == Canceled
  {
    if evs != [] {
      WriteIsReplyOrCancel(Front(evs));
    }
  }

  lemma {:induction false} RunPrefix<R>(k: uint32, evs: seq<Event<R>>, i: nat)
    requires IsRun(k, evs) && i <= |evs|
    ensures IsRun(k, evs[..i])
    ensures i < |evs| ==>
      && Enabled(After(k, evs[..i]), evs[i])
      && After(k, evs[..i + 1]) == Step(After(k, evs[..i]), evs[i])
    decreases |evs|
  {
    if i == |evs| {
      assert evs[..i] == evs;
    } else {
      RunPrefix(k, Front(evs), i);
      assert Front(evs)[..i] == evs[..i];
      if i + 1 == |evs| {
        assert evs[..i] == Front(evs) && evs[..i + 1] == evs;
      } else {
        assert Front(evs)[..i + 1] == evs[..i + 1];
      }
    }
  }

  lemma CallsStep<R>(k: uint32, evs: seq<Event<R>>, i: nat)
    requires IsRun(k, evs) && i < |evs|
    ensures Calls(k, evs[..i + 1]) == Calls(k, evs[..i]) +
      if !After(k, evs[..i]).pc.Transmitting? && After(k, evs[..i + 1]).pc.Transmitting? then 1 else 0
  {
    assert Front(evs[..i + 1]) == evs[..i];
  }

  lemma RunSound<R>(k: uint32, evs: seq<Event<R>>)
    requires IsRun(k, evs)
    ensures Sound(After(k, evs))
  {
    RunAccounted(k, evs);
  }

  /** Once `sending` is left it is never entered again, and nothing is
      transmitted any more. */
  lemma {:induction false} SendingIsLeftOnce<R>(k: uint32, evs: seq<Event<R>>, i: nat, j: nat)
    requires IsRun(k, evs) && i <= j <= |evs|
    requires After(k, evs[..i]).state != Sending
    ensures After(k, evs[..j]).state != Sending
    ensures Calls(k, evs[..j]) == Calls(k, evs[..i])
    decreases j
  {
    hide After, Calls, IsRun;
    if i < j {
      SendingIsLeftOnce(k, evs, i, j - 1);
      RunPrefix(k, evs, j - 1);
      RunSound(k, evs[..j - 1]);
      StepSound(After(k, evs[..j - 1]), evs[j - 1]);
      hide Step, Enabled, Sound;
      CallsStep(k, evs, j - 1);
    }
  }

  /** What is left of the coroutine: three steps for every permitted transmission. */
  function Measure<R>(l: Loop<R>): nat {
    match l.pc
    case Transmitting => 3 * l.attempts + 3
    case Waiting => 3 * l.attempts + 2
    case Queued(_) => 3 * l.attempts + 1
    case _ => 0
  }

  lemma MeasureFalls<R>(l: Loop<R>, ev: Event<R>)
    requires Sound(l) && Enabled(l, ev) && !l.pc.Idle?
    ensures Measure(Step(l, ev)) <= Measure(l)
    ensures !ev.Reply? && !ev.Abort? ==> Measure(Step(l, ev)) < Measure(l)
  {
  }

  /** Every run has at most three steps of the coroutine for each permitted
      transmission, and until it returns one of them is possible. */
  lemma {:induction false} SendTerminates<R>(k: uint32, evs: seq<Event<R>>)
    requires IsRun(k, evs)
    ensures OwnSteps(evs) + Measure(After(k, evs)) <= 3 * Budget(k)
    ensures var l := After(k, evs);
      !l.pc.Returned? ==> Enabled(l, SendDone) || Enabled(l, Expire) || Enabled(l, Resume)
    ensures !After(k, evs).pc.Idle?
  {
    if evs != [] {
      SendTerminates(k, Front(evs));
      RunAccounted(k, Front(evs));
      MeasureFalls(After(k, Front(evs)), Last(evs));
    }
  }

  /** A reply that lands between the last expiry and the resumption is stored,
      and the message still counts as timed out. */
  lemma LateReplyIsOverruled<R>(r: R)
    ensures var evs := [SendDone, Expire, Reply(r), Resume];
      && IsRun(1, evs)
      && After(1, evs).state == Timeout && After(1, evs).response == Some(r)
  {
    var e1: seq<Event<R>> := [SendDone];
    var e2: seq<Event<R>> := [SendDone, Expire];
    var e3 := [SendDone, Expire, Reply(r)];
    var e4 := [SendDone, Expire, Reply(r), Resume];
    assert Front(e1) == [] && Front(e2) == e1 && Front(e3) == e2 && Front(e4) == e3;
    assert After(1, e1) == Loop(Sending, 0, Waiting, None);
    assert After(1, e2) == Loop(Sending, 0, Queued(Expired), None);
    assert After(1, e3) == Loop(Okay, 0, Queued(Expired), Some(r));
    assert IsRun(1, e1) && IsRun(1, e2) && IsRun(1, e3);
  }

  lemma AtStart<R>(k: uint32)
    ensures After<R>(k, []) == Begin(Fresh(), k) && Calls<R>(k, []) == 1
  {
  }

  lemma ReturnedAtEnd<R>(k: uint32, evs: seq<Event<R>>, i: nat)
    requires IsRun(k, evs) && i <= |evs| && After(k, evs[..i]).pc.Returned?
    ensures evs[..i] == evs
  {
    RunPrefix(k, evs, i);
  }

  // ------------------------------------------------------------ the class

  /** `AsyncMessageState`.  The last two fields are the local variable and the
      program counter of its coroutine `send`. */
  class AsyncMessageState<R> {
    var state: MsgState
    var response: Option<R>
    var attempts: uint32
    var pc: Pc

    ghost function Model(): Loop<R>
      reads this
    {
      Loop(state, attempts, pc, response)
    }

    constructor ()
      ensures Model() == Fresh()
    {
      state := Initial;
      response := None;
      attempts := 0;
      pc := Idle;
    }

    method CancelTimer()
      modifies this`pc
      ensures pc == TimerCancelled(old(pc))
    {
      if pc.Waiting? {
        pc := Queued(Aborted);
      }
    }

    method SetResponse(r: R)
      modifies this
      ensures Model() == Replied(old(Model()), r)
    {
      state := Okay;
      CancelTimer();
      response := Some(r);
    }

    method Cancel()
      modifies this
      ensures Model() == Cancelled(old(Model()))
    {
      state := Canceled;
      CancelTimer();
    }

    /** Suspended in `sendMethod` from event `i` on; event `j - 1` completes it. */
    method AwaitTransmission(k: uint32, world: seq<Event<R>>, i: nat) returns (j: nat)
      requires IsRun(k, world) && After(k, world).pc.Returned? && i <= |world|
      requires Model() == After(k, world[..i]) && pc.Transmitting?
      modifies this
      ensures i < j <= |world| && world[j - 1] == SendDone
      ensures Model() == After(k, world[..j - 1]) && pc.Transmitting?
      ensures Calls(k, world[..j - 1]) == Calls(k, world[..i])
    {
      hide After, Calls, IsRun;
      j := i;
      assert world[..|world|] == world;
      RunPrefix(k, world, j);
      while !world[j].SendDone?
        invariant i <= j < |world|
        invariant Model() == After(k, world[..j]) && pc.Transmitting?
        invariant Enabled(After(k, world[..j]), world[j])
        invariant Calls(k, world[..j]) == Calls(k, world[..i])
        decreases |world| - j
      {
        RunPrefix(k, world, j);
        CallsStep(k, world, j);
        match world[j] {
          case Reply(r) => SetResponse(r);
          case Abort => Cancel();
        }
        j := j + 1;
        RunPrefix(k, world, j);
      }
      j := j + 1;
    }

    /** Suspended on the timer from event `i` on; event `j - 1` resumes. */
    method AwaitTimer(k: uint32, world: seq<Event<R>>, i: nat) returns (j: nat, completion: Completion)
      requires IsRun(k, world) && After(k, world).pc.Returned? && i <= |world|
      requires Model() == After(k, world[..i]) && pc.Waiting?
      modifies this
      ensures i < j <= |world| && world[j - 1] == Resume
      ensures Model() == After(k, world[..j - 1]) && pc == Queued(completion)
      ensures Calls(k, world[..j - 1]) == Calls(k, world[..i])
    {
      hide After, Calls, IsRun;
      j := i;
      assert world[..|world|] == world;
      RunPrefix(k, world, j);
      while !world[j].Resume?
        invariant i <= j < |world|
        invariant Model() == After(k, world[..j]) && (pc.Waiting? || pc.Queued?)
        invariant Enabled(After(k, world[..j]), world[j])
        invariant Calls(k, world[..j]) == Calls(k, world[..i])
        decreases |world| - j
      {
        RunPrefix(k, world, j);
        CallsStep(k, world, j);
        match world[j] {
          case Reply(r) => SetResponse(r);
          case Abort => Cancel();
          case Expire => pc := Queued(Expired);
          case Fail => pc := Queued(Failed);
        }
        j := j + 1;
        RunPrefix(k, world, j);
      }
      completion := pc.completion;
      j := j + 1;
    }

    /** The retry loop of `send`, in a world that replies, cancels and lets
        timers run out as `world` says until the coroutine returns. */
    method Send(k: uint32, world: seq<Event<R>>) returns (calls: nat)
      requires Model() == Fresh()
      requires IsRun(k, world) && After(k, world).pc.Returned?
      modifies this
      ensures Model() == After(k, world)
      ensures calls == Calls(k, world)
    {
      hide After, Calls, IsRun, Measure, Enabled;
      AtStart<R>(k);
      state := Sending;
      attempts := k;
      calls := 0;
      var i := 0;
      assert world[..0] == [];
      while state == Sending
        invariant i <= |world|
        invariant state == Sending ==>
          After(k, world[..i]) == Loop(Sending, Decrement(attempts), Transmitting, response)
        invariant state == Sending ==> calls + 1 == Calls(k, world[..i])
        invariant state != Sending ==>
          Model() == After(k, world[..i]) && pc.Returned? && calls == Calls(k, world[..i])
        decreases |world| - i, if state == Sending then 1 else 0
      {
        attempts := Decrement(attempts);
        pc := Transmitting;
        calls := calls + 1;
        i := AwaitTransmission(k, world, i);
        RunPrefix(k, world, i - 1);
        CallsStep(k, world, i - 1);
        if state == Okay || state == Canceled {
          pc := Returned;
          break;
        }
        pc := Waiting;
        var completion;
        i, completion := AwaitTimer(k, world, i);
        RunPrefix(k, world, i - 1);
        CallsStep(k, world, i - 1);
        if completion == Expired && attempts == 0 {
          state := Timeout;
        } else if completion == Failed {
          state := Error;
        }
        if state != Sending {
          pc := Returned;
        }
      }
      ReturnedAtEnd(k, world, i);
    }
  }
}
