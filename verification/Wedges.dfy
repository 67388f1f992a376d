/** When a reader blocks for ever: it holds a message for a channel from which nobody receives. */
module Wedges {
  import opened Messages
  import opened Subscriptions
  import opened Machine
  import opened Frames
  import opened Wire

  predicate Wedged(s: S, c: int) {
    && IsConn(s, c) && s.conns[c].mode.Handing?
    && Asks(s.stage, s.calls, c, s.conns[c].mode.ch, s.conns[c].mode.x).None?
  }

  /** The step is the timeout of the goroutine for which the reader of `c` has looked a message up. */
  predicate LeavesInHand(s: S, step: Step, c: int) {
    CanHandOver(s, c) &&
    match s.conns[c].mode.ch.w
    case Holder => step == Add(AddTimeout) || step == Tear(TearTimeout)
    case Caller(t) => step == Net(CallTimeout(t))
    case Reader => false
  }

  /** The step brings a message under an id whose channel was left behind. */
  predicate FindsLeftBehind(s: S, step: Step, c: int) {
    match step
    case Net(Reply(d, x, _, _, _, _)) => d == c && LeftBehind(s, c, x)
    case Net(Notify(d, x, _)) => d == c && !s.eth && LeftBehind(s, c, x)
    case _ => false
  }

  predicate LeftBehind(s: S, c: int, x: Id) {
    IsConn(s, c) && x in s.conns[c].resp && Asks(s.stage, s.calls, c, s.conns[c].resp[x], x).None?
  }

  ghost predicate AllNumbered(s: S) {
    forall c :: IsConn(s, c) ==> Numbered(s.conns[c])
  }

  // ----- steps

  predicate IsCall(step: NetStep) {
    step.CallSend? || step.CallSendFail? || step.CallTimeout? || step.HandOver?
  }

  ghost predicate StillNumbered(s: S, s': S) {
    |s'.conns| == |s.conns| && (AllNumbered(s) ==> AllNumbered(s'))
  }

  lemma AddNumbers(s: S, step: AddStep)
    requires EnabledAdd(s, step)
    ensures StillNumbered(s, ApplyAdd(s, step))
  {
  }

  lemma TearNumbers(s: S, step: TearStep)
    requires EnabledTear(s, step)
    ensures StillNumbered(s, ApplyTear(s, step))
  {
  }

  lemma OneNumbered(s: S, s': S, c: int)
    requires IsConn(s, c) && |s'.conns| == |s.conns|
    requires forall d :: IsConn(s, d) && d != c ==> s'.conns[d] == s.conns[d]
    requires Numbered(s.conns[c]) ==> Numbered(s'.conns[c])
    ensures StillNumbered(s, s')
  {
  }

  lemma CallNumbers(s: S, step: NetStep)
    requires EnabledNet(s, step) && IsCall(step)
    ensures StillNumbered(s, ApplyNet(s, step))
  {
    match step
    case CallSend(_, _, c, _) => OneNumbered(s, ApplyNet(s, step), c);
    case CallSendFail(_, c, _, _) => OneNumbered(s, ApplyNet(s, step), c);
    case CallTimeout(t) => OneNumbered(s, ApplyNet(s, step), s.calls[t].c);
    case HandOver(c) => OneNumbered(s, ApplyNet(s, step), c);
  }

  /** A message that arrives sets the mode of its reader, and no channel. */
  ghost predicate Arrived(s: S, s': S, c: int, x: Id, looked: bool) {
    && |s'.conns| == |s.conns| && s'.stage == s.stage && s'.calls == s.calls && IsConn(s, c)
    && (forall d :: IsConn(s, d) ==> s'.conns[d].resp == s.conns[d].resp && s'.conns[d].made == s.conns[d].made)
    && (forall d :: IsConn(s, d) && d != c ==> s'.conns[d].mode == s.conns[d].mode)
    && (if looked && x in s.conns[c].resp
        then s'.conns[c].mode.Handing? && s'.conns[c].mode.ch == s.conns[c].resp[x] && s'.conns[c].mode.x == x
        else s'.conns[c].mode == s.conns[c].mode)
  }

  lemma Arrives(s: S, step: NetStep)
    requires EnabledNet(s, step) && IsArrival(step)
    ensures s.conns[step.c].mode.Reading? && Arrived(s, ApplyNet(s, step), step.c, step.x, step.Reply? || !s.eth)
  {
    match step
    case Reply(c, x, call, body, sid, obeyed) =>
      ReceiveArrives(Answered(s, c, x, call, sid, obeyed), c, x, Some(call), body, sid);
    case Notify(c, x, body) => ReceiveArrives(s, c, x, None, body, x);
  }

  lemma ReceiveArrives(s: S, c: int, x: Id, answered: Option<Call>, body: Msg, sid: Id)
    requires IsConn(s, c)
    ensures Arrived(s, Receive(s, c, x, answered, body, sid), c, x, answered.Some? || !s.eth)
  {
  }

  lemma ArrivalNumbers(s: S, s': S, c: int, x: Id, looked: bool)
    requires Arrived(s, s', c, x, looked)
    ensures StillNumbered(s, s')
  {
  }

  lemma ModeNumbers(s: S, step: NetStep)
    requires EnabledNet(s, step) && !IsCall(step) && !IsArrival(step)
    ensures StillNumbered(s, ApplyNet(s, step))
  {
  }

  lemma StepNumbers(s: S, step: Step)
    requires Enabled(s, step)
    ensures StillNumbered(s, Apply(s, step))
  {
    match step
    case Add(a) => AddNumbers(s, a);
    case Rem(r) => assert ApplyRem(s, r).conns == s.conns;
    case Tear(t) => TearNumbers(s, t);
    case Net(n) =>
      if IsCall(n) { CallNumbers(s, n); }
      else if IsArrival(n) { Arrives(s, n); ArrivalNumbers(s, ApplyNet(s, n), n.c, n.x, n.Reply? || !s.eth); }
      else { ModeNumbers(s, n); }
  }

  lemma AddWedges(s: S, step: AddStep, c: int)
    requires AllNumbered(s) && EnabledAdd(s, step) && IsConn(s, c)
    ensures Wedged(ApplyAdd(s, step), c) <==> Wedged(s, c) || LeavesInHand(s, Add(step), c)
  {
    assert Numbered(s.conns[c]);
    if !step.AddSend? && !step.AddTimeout? {
      HolderIdle(s, ApplyAdd(s, step), c);
    }
  }

  /** The holder of the mutex waits for nothing, before and after. */
  lemma HolderIdle(s: S, s': S, c: int)
    requires IsConn(s, c) && |s'.conns| == |s.conns| && s'.conns[c].mode == s.conns[c].mode && s'.calls == s.calls
    requires !s.stage.AddSent? && !s.stage.TearSent? && !s'.stage.AddSent? && !s'.stage.TearSent?
    ensures Wedged(s', c) <==> Wedged(s, c)
  {
  }

  lemma RemWedges(s: S, step: RemStep, c: int)
    requires EnabledRem(s, step) && IsConn(s, c)
    ensures Wedged(ApplyRem(s, step), c) <==> Wedged(s, c)
  {
  }

  lemma TearWedges(s: S, step: TearStep, c: int)
    requires AllNumbered(s) && EnabledTear(s, step) && IsConn(s, c)
    ensures Wedged(ApplyTear(s, step), c) <==> Wedged(s, c) || LeavesInHand(s, Tear(step), c)
  {
    assert Numbered(s.conns[c]);
  }

  lemma ArrivalWedges(s: S, s': S, d: int, x: Id, looked: bool, c: int)
    requires Arrived(s, s', d, x, looked) && s.conns[d].mode.Reading? && IsConn(s, c)
    ensures Wedged(s', c) <==> Wedged(s, c) || (d == c && looked && LeftBehind(s, c, x))
  {
  }

  lemma SendWedges(s: S, s': S, t: Tid, c: int)
    requires AllNumbered(s) && IsConn(s, c) && t !in s.calls
    requires s'.stage == s.stage && |s'.conns| == |s.conns| && s'.conns[c].mode == s.conns[c].mode
    requires s'.calls == s.calls || (t in s'.calls && s'.calls == s.calls[t := s'.calls[t]] && IsConn(s, s'.calls[t].c)
                                     && s'.calls[t].k == s.conns[s'.calls[t].c].made)
    ensures Wedged(s', c) <==> Wedged(s, c)
  {
    assert Numbered(s.conns[c]);
  }

  lemma CallWedges(s: S, step: NetStep, c: int)
    requires AllNumbered(s) && EnabledNet(s, step) && IsConn(s, c) && IsCall(step)
    ensures Wedged(ApplyNet(s, step), c) <==> Wedged(s, c) || LeavesInHand(s, Net(step), c)
  {
    match step
    case CallSend(t, _, _, _) => SendWedges(s, ApplyNet(s, step), t, c);
    case CallSendFail(t, _, _, _) => SendWedges(s, ApplyNet(s, step), t, c);
    case CallTimeout(t) => assert ApplyNet(s, step).calls == s.calls - {t};
    case HandOver(d) => HandWedges(s, d, c);
  }

  lemma HandWedges(s: S, d: int, c: int)
    requires CanHandOver(s, d) && IsConn(s, c)
    ensures Wedged(Hand(s, d), c) <==> Wedged(s, c)
  {
  }

  lemma ModeWedges(s: S, step: NetStep, c: int)
    requires EnabledNet(s, step) && IsConn(s, c) && !IsCall(step) && !IsArrival(step)
    ensures Wedged(ApplyNet(s, step), c) <==> Wedged(s, c)
  {
  }

  /** A reader is blocked for ever after a step exactly when it was before, or the goroutine to which it
      is handing a message times out, or it looks up a channel that was left behind. */
  lemma StepWedgesIff(s: S, step: Step, c: int)
    requires AllNumbered(s) && Enabled(s, step) && IsConn(s, c)
    ensures Wedged(Apply(s, step), c) <==> Wedged(s, c) || LeavesInHand(s, step, c) || FindsLeftBehind(s, step, c)
  {
    match step
    case Add(a) => AddWedges(s, a, c);
    case Rem(r) => RemWedges(s, r, c);
    case Tear(t) => TearWedges(s, t, c);
    case Net(n) =>
      if IsCall(n) { CallWedges(s, n, c); }
      else if IsArrival(n) { Arrives(s, n); ArrivalWedges(s, ApplyNet(s, n), n.c, n.x, n.Reply? || !s.eth, c); }
      else { ModeWedges(s, n, c); }
  }

  // ----- runs

  /** The step is a send over `c` under `rid` that fails once the channel has been stored. */
  predicate SendFailsStored(s: S, step: Step, c: int, rid: Id) {
    match step
    case Add(AddSendFail(d, x, stored)) => d == c && x == rid && stored
    case Tear(TearSendFail(x, stored)) => CanTear(s) && s.pool.conn[s.stage.sid] == c && x == rid && stored
    case Net(CallSendFail(_, d, x, stored)) => d == c && x == rid && stored
    case _ => false
  }

  /** It leaves its channel behind, while its id can be drawn again: a message that came under the id before
      it is drawn again would block the reader. */
  lemma FailedSendLeavesBehind(s: S, step: Step, c: int, rid: Id)
    requires Enabled(s, step) && SendFailsStored(s, step, c, rid)
    ensures LeftBehind(Apply(s, step), c, rid) && rid !in Apply(s, step).gen
  {
  }

  lemma {:induction false} RunNumbers(eth: bool, n: nat, steps: seq<Step>)
    ensures AllNumbered(Run(Init(eth, n), steps)) && |Run(Init(eth, n), steps).conns| == n
    decreases |steps|
  {
    if steps != [] {
      RunNumbers(eth, n, Front(steps));
      var s := Run(Init(eth, n), Front(steps));
      if Enabled(s, Last(steps)) {
        StepNumbers(s, Last(steps));
      }
    }
  }

  /** Step number `i` of the schedule wedges the reader of `c`. */
  ghost predicate WedgesAt(eth: bool, n: nat, steps: seq<Step>, i: nat, c: int)
    requires i < |steps|
  {
    var s := Run(Init(eth, n), steps[..i]);
    Enabled(s, steps[i]) && (LeavesInHand(s, steps[i], c) || FindsLeftBehind(s, steps[i], c))
  }

  /** Over every schedule. */
  lemma {:induction false} RunWedges(eth: bool, n: nat, steps: seq<Step>, c: int)
    requires 0 <= c < n
    ensures Wedged(Run(Init(eth, n), steps), c) <==> exists i :: 0 <= i < |steps| && WedgesAt(eth, n, steps, i, c)
    decreases |steps|
  {
    if steps != [] {
      var last := |steps| - 1;
      RunWedges(eth, n, Front(steps), c);
      RunNumbers(eth, n, Front(steps));
      var s := Run(Init(eth, n), Front(steps));
      forall i | 0 <= i < last
        ensures WedgesAt(eth, n, Front(steps), i, c) == WedgesAt(eth, n, steps, i, c)
      {
        assert Front(steps)[..i] == steps[..i];
      }
      if Enabled(s, Last(steps)) {
        StepWedgesIff(s, Last(steps), c);
      }
      assert WedgesAt(eth, n, steps, last, c) <==>
        Enabled(s, Last(steps)) && (LeavesInHand(s, Last(steps), c) || FindsLeftBehind(s, Last(steps), c));
    }
  }

  /** In a quiet schedule no message comes for a channel that was left behind. */
  lemma NothingComesForTheLeftBehind(s: S, step: Step, c: int)
    requires WireOk(s) && Enabled(s, step) && IsConn(s, c)
    ensures !FindsLeftBehind(s, step, c)
  {
    assert LinkOk(s.eth, s.conns[c], c, s.stage, s.calls);
  }

  lemma {:induction false} WedgedStays(s: S, steps: seq<Step>, c: int)
    requires AllNumbered(s) && Wedged(s, c)
    ensures AllNumbered(Run(s, steps)) && Wedged(Run(s, steps), c)
    decreases |steps|
  {
    if steps != [] {
      WedgedStays(s, Front(steps), c);
      var r := Run(s, Front(steps));
      if Enabled(r, Last(steps)) {
        StepNumbers(r, Last(steps));
        StepWedgesIff(r, Last(steps), c);
      }
    }
  }
}
