/** Where the replies that callers get come from. */
module Answers {
  import opened Messages
  import opened Subscriptions
  import opened Machine
  import opened Frames

  /** The step is the node's answer `body` to `call`. */
  predicate IsAnswer(step: Step, call: Call, body: Msg) {
    step.Net? && step.net.Reply? && step.net.call == call && step.net.body == body
  }

  /** Some step of the run brought the node's answer `body` to `call`. */
  ghost predicate Brought(s: S, steps: seq<Step>, call: Call, body: Msg) {
    exists i :: 0 <= i < |steps| && BroughtAt(s, steps, i, call, body)
  }

  ghost predicate BroughtAt(s: S, steps: seq<Step>, i: nat, call: Call, body: Msg)
    requires i < |steps|
  {
    Enabled(Run(s, steps[..i]), steps[i]) && IsAnswer(steps[i], call, body)
  }

  /** What a reader holds as an answer the node has sent. */
  ghost predicate HeldAnswered(s0: S, steps: seq<Step>, s: S) {
    forall c :: IsConn(s, c) && s.conns[c].mode.Handing? && s.conns[c].mode.answered.Some? ==>
      Brought(s0, steps, s.conns[c].mode.answered.value, s.conns[c].mode.body)
  }

  /** A reply that a caller got for an answer is that message under the caller's id. */
  ghost predicate ReplyAnswered(s0: S, steps: seq<Step>, r: Returned) {
    r.answered.Some? ==>
      exists body :: Brought(s0, steps, r.answered.value, body) && r.reply == body.(id := r.msg.id)
  }

  ghost predicate AllAnswered(s0: S, steps: seq<Step>, s: S) {
    HeldAnswered(s0, steps, s) && forall r :: r in s.returned ==> ReplyAnswered(s0, steps, r)
  }

  lemma StillBrought(s0: S, steps: seq<Step>, step: Step, call: Call, body: Msg)
    requires Brought(s0, steps, call, body)
    ensures Brought(s0, steps + [step], call, body)
  {
    var i :| 0 <= i < |steps| && BroughtAt(s0, steps, i, call, body);
    assert (steps + [step])[..i] == steps[..i] && (steps + [step])[i] == steps[i];
    assert BroughtAt(s0, steps + [step], i, call, body);
  }

  lemma JustBrought(s0: S, steps: seq<Step>, step: Step, call: Call, body: Msg)
    requires Enabled(Run(s0, steps), step) && IsAnswer(step, call, body)
    ensures Brought(s0, steps + [step], call, body)
  {
    assert (steps + [step])[..|steps|] == steps;
    assert BroughtAt(s0, steps + [step], |steps|, call, body);
  }

  /** What the schedule has brought stays brought. */
  lemma AnsweredGrows(s0: S, steps: seq<Step>, step: Step, s: S)
    requires AllAnswered(s0, steps, s)
    ensures AllAnswered(s0, steps + [step], s)
  {
    forall c | IsConn(s, c) && s.conns[c].mode.Handing? && s.conns[c].mode.answered.Some?
      ensures Brought(s0, steps + [step], s.conns[c].mode.answered.value, s.conns[c].mode.body)
    {
      StillBrought(s0, steps, step, s.conns[c].mode.answered.value, s.conns[c].mode.body);
    }
    forall r | r in s.returned
      ensures ReplyAnswered(s0, steps + [step], r)
    {
      assert ReplyAnswered(s0, steps, r);
      if r.answered.Some? {
        var body :| Brought(s0, steps, r.answered.value, body) && r.reply == body.(id := r.msg.id);
        StillBrought(s0, steps, step, r.answered.value, body);
      }
    }
  }

  /** Readers pick nothing up and callers get nothing. */
  ghost predicate NothingHeld(s: S, s': S) {
    && |s'.conns| == |s.conns| && s'.returned == s.returned
    && (forall c :: IsConn(s, c) && s'.conns[c].mode.Handing? ==>
          && s.conns[c].mode.Handing? && s'.conns[c].mode.answered == s.conns[c].mode.answered
          && s'.conns[c].mode.body == s.conns[c].mode.body)
  }

  lemma AddHoldsNothing(s: S, step: AddStep)
    requires EnabledAdd(s, step)
    ensures NothingHeld(s, ApplyAdd(s, step))
  {
  }

  lemma TearHoldsNothing(s: S, step: TearStep)
    requires EnabledTear(s, step)
    ensures NothingHeld(s, ApplyTear(s, step))
  {
  }

  lemma NetHoldsNothing(s: S, step: NetStep)
    requires EnabledNet(s, step) && !IsArrival(step) && !step.HandOver?
    ensures NothingHeld(s, ApplyNet(s, step))
  {
  }

  /** The reader of `c` holds the message, or nothing has changed for any reader. */
  lemma ReceiveHolds(s: S, c: int, x: Id, answered: Option<Call>, body: Msg, sid: Id)
    requires IsConn(s, c)
    ensures
      var s' := Receive(s, c, x, answered, body, sid);
      && s'.returned == s.returned && |s'.conns| == |s.conns|
      && (forall d :: IsConn(s, d) && d != c ==> s'.conns[d].mode == s.conns[d].mode)
      && (s'.conns[c].mode == s.conns[c].mode
          || (s'.conns[c].mode.Handing? && s'.conns[c].mode.answered == answered && s'.conns[c].mode.body == body))
  {
  }

  lemma ArrivalAnswered(s0: S, steps: seq<Step>, s: S, step: NetStep)
    requires Run(s0, steps) == s && EnabledNet(s, step) && IsArrival(step)
    requires AllAnswered(s0, steps + [Net(step)], s)
    ensures AllAnswered(s0, steps + [Net(step)], ApplyNet(s, step))
  {
    match step
    case Reply(c, x, call, body, sid, obeyed) =>
      JustBrought(s0, steps, Net(step), call, body);
      ReceiveHolds(Answered(s, c, x, call, sid, obeyed), c, x, Some(call), body, sid);
    case Notify(c, x, body) => ReceiveHolds(s, c, x, None, body, x);
  }

  /** One reply more for the caller, or none: the message in hand, under the caller's id. */
  lemma HandReturns(s: S, c: int)
    requires CanHandOver(s, c)
    ensures
      var m := s.conns[c].mode;
      var s' := Hand(s, c);
      && |s'.conns| == |s.conns| && (forall d :: IsConn(s, d) && d != c ==> s'.conns[d] == s.conns[d])
      && !s'.conns[c].mode.Handing?
      && (if m.ch.w.Caller?
          then
            var msg := s.calls[m.ch.w.t].msg;
            s'.returned == s.returned + [Returned(msg, m.answered, m.body.(id := msg.id))]
          else s'.returned == s.returned)
  {
  }

  lemma HandAnswered(s0: S, steps: seq<Step>, s: S, c: int)
    requires AllAnswered(s0, steps, s) && CanHandOver(s, c)
    ensures AllAnswered(s0, steps, Hand(s, c))
  {
    HandReturns(s, c);
    var s' := Hand(s, c);
    var m := s.conns[c].mode;
    forall r | r in s'.returned
      ensures ReplyAnswered(s0, steps, r)
    {
      if r !in s.returned && r.answered.Some? {
        assert Brought(s0, steps, m.answered.value, m.body);
      }
    }
  }

  lemma StepAnswered(s0: S, steps: seq<Step>, s: S, step: Step)
    requires Run(s0, steps) == s && Enabled(s, step) && AllAnswered(s0, steps, s)
    ensures AllAnswered(s0, steps + [step], Apply(s, step))
  {
    AnsweredGrows(s0, steps, step, s);
    match step
    case Add(a) => AddHoldsNothing(s, a);
    case Rem(r) => assert ApplyRem(s, r).conns == s.conns && ApplyRem(s, r).returned == s.returned;
    case Tear(t) => TearHoldsNothing(s, t);
    case Net(n) =>
      if IsArrival(n) { ArrivalAnswered(s0, steps, s, n); }
      else if n.HandOver? { HandAnswered(s0, steps + [step], s, n.c); }
      else { NetHoldsNothing(s, n); }
  }

  lemma {:induction false} RunAnswered(eth: bool, n: nat, steps: seq<Step>)
    ensures AllAnswered(Init(eth, n), steps, Run(Init(eth, n), steps))
    decreases |steps|
  {
    if steps != [] {
      var s0 := Init(eth, n);
      RunAnswered(eth, n, Front(steps));
      var s := Run(s0, Front(steps));
      assert Front(steps) + [Last(steps)] == steps;
      if Enabled(s, Last(steps)) {
        StepAnswered(s0, Front(steps), s, Last(steps));
      } else {
        AnsweredGrows(s0, Front(steps), Last(steps), s);
      }
    }
  }

  // ----- every call is settled once

  /** Requests that the step sends for callers, and callers that it lets give up. */
  ghost function Sends(s: S, step: Step): nat {
    if Enabled(s, step) && step.Net? && step.net.CallSend? then 1 else 0
  }

  ghost function GivesUp(s: S, step: Step): nat {
    if Enabled(s, step) && step.Net? && step.net.CallTimeout? then 1 else 0
  }

  ghost function Sent(s: S, steps: seq<Step>): nat
    decreases |steps|
  {
    if steps == [] then 0 else Sent(s, Front(steps)) + Sends(Run(s, Front(steps)), Last(steps))
  }

  ghost function GivenUp(s: S, steps: seq<Step>): nat
    decreases |steps|
  {
    if steps == [] then 0 else GivenUp(s, Front(steps)) + GivesUp(Run(s, Front(steps)), Last(steps))
  }

  ghost predicate Balanced(s: S, step: Step, s': S) {
    |s'.calls| + |s'.returned| + GivesUp(s, step) == |s.calls| + |s.returned| + Sends(s, step)
  }

  lemma Smaller(calls: map<Tid, Flight>, t: Tid)
    requires t in calls
    ensures |calls - {t}| == |calls| - 1
  {
    assert (calls - {t}).Keys == calls.Keys - {t};
  }

  lemma Larger(calls: map<Tid, Flight>, t: Tid, f: Flight)
    requires t !in calls
    ensures |calls[t := f]| == |calls| + 1
  {
    assert calls[t := f].Keys == calls.Keys + {t};
  }

  lemma AddSettlesNothing(s: S, step: AddStep)
    requires EnabledAdd(s, step)
    ensures ApplyAdd(s, step).calls == s.calls && ApplyAdd(s, step).returned == s.returned
  {
  }

  lemma RemSettlesNothing(s: S, step: RemStep)
    requires EnabledRem(s, step)
    ensures ApplyRem(s, step).calls == s.calls && ApplyRem(s, step).returned == s.returned
  {
  }

  lemma TearSettlesNothing(s: S, step: TearStep)
    requires EnabledTear(s, step)
    ensures ApplyTear(s, step).calls == s.calls && ApplyTear(s, step).returned == s.returned
  {
  }

  lemma NetSettlesNothing(s: S, step: NetStep)
    requires EnabledNet(s, step) && !step.CallSend? && !step.CallTimeout? && !step.HandOver?
    ensures ApplyNet(s, step).calls == s.calls && ApplyNet(s, step).returned == s.returned
  {
    if IsArrival(step) {
      ArrivalChanges(s, step);
      ArrivalReturnsNothing(s, step);
    }
  }

  lemma ArrivalReturnsNothing(s: S, step: NetStep)
    requires EnabledNet(s, step) && IsArrival(step)
    ensures ApplyNet(s, step).returned == s.returned
  {
    match step
    case Reply(c, x, call, body, sid, obeyed) =>
      ReceiveHolds(Answered(s, c, x, call, sid, obeyed), c, x, Some(call), body, sid);
    case Notify(c, x, body) => ReceiveHolds(s, c, x, None, body, x);
  }

  lemma NetBalances(s: S, step: NetStep)
    requires EnabledNet(s, step)
    ensures Balanced(s, Net(step), ApplyNet(s, step))
  {
    match step
    case CallSend(t, msg, c, rid) => Larger(s.calls, t, Flight(c, rid, s.conns[c].made, msg));
    case CallTimeout(t) => Smaller(s.calls, t);
    case HandOver(c) => HandBalances(s, c);
    case _ => NetSettlesNothing(s, step);
  }

  lemma HandBalances(s: S, c: int)
    requires CanHandOver(s, c)
    ensures |Hand(s, c).calls| + |Hand(s, c).returned| == |s.calls| + |s.returned|
  {
    if s.conns[c].mode.ch.w.Caller? {
      Smaller(s.calls, s.conns[c].mode.ch.w.t);
    }
  }

  lemma StepBalances(s: S, step: Step)
    requires Enabled(s, step)
    ensures Balanced(s, step, Apply(s, step))
  {
    match step
    case Add(a) => AddSettlesNothing(s, a);
    case Rem(r) => RemSettlesNothing(s, r);
    case Tear(t) => TearSettlesNothing(s, t);
    case Net(n) => NetBalances(s, n);
  }

  /** Every request that was sent for a caller has been returned once, was given up, or is in flight. */
  lemma {:induction false} CallsAreSettledOnce(eth: bool, n: nat, steps: seq<Step>)
    ensures
      var s := Run(Init(eth, n), steps);
      Sent(Init(eth, n), steps) == |s.returned| + GivenUp(Init(eth, n), steps) + |s.calls|
    decreases |steps|
  {
    if steps != [] {
      CallsAreSettledOnce(eth, n, Front(steps));
      var s := Run(Init(eth, n), Front(steps));
      if Enabled(s, Last(steps)) {
        StepBalances(s, Last(steps));
      }
    }
  }
}
