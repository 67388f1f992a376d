/** What an Ethereum reset forgets stays dead until every client has left it. */
module Resets {
  import opened Messages
  import opened Subscriptions
  import opened Machine
  import opened Frames
  import opened Registry
  import opened Leaks

  /** The table has subscription `x`, and no connection does. */
  ghost predicate Forgotten(s: S, x: Id) {
    s.eth && x in s.sm.idToParam && forall c :: IsConn(s, c) ==> x !in s.conns[c].maps.byId
  }

  /** A reset forgets every subscription that the connection had. */
  lemma ResetForgets(s: S, c: int, todo: seq<(Id, Param)>, x: Id)
    requires Reg(s) && s.eth && Enabled(s, Net(Reconnect(c, todo)))
    requires x in s.conns[c].maps.byId && x in s.sm.idToParam
    ensures Forgotten(Apply(s, Net(Reconnect(c, todo))), x)
  {
    OnOneConn(s, x);
  }

  /** A step broadcasts nothing, or one message under an id that some connection has registered. */
  ghost predicate SendsRegistered(s: S, s': S) {
    || s'.sent == s.sent
    || (|s'.sent| == |s.sent| + 1 && s'.sent[..|s.sent|] == s.sent
        && exists c :: IsConn(s, c) && Last(s'.sent).sid in s.conns[c].maps.byId)
  }

  lemma ArrivalSends(s: S, step: NetStep)
    requires EnabledNet(s, step) && IsArrival(step)
    ensures SendsRegistered(s, ApplyNet(s, step))
  {
    var c := step.c;
    assert IsConn(s, c);
    match step
    case Reply(_, x, call, body, sid, obeyed) =>
      assert Answered(s, c, x, call, sid, obeyed).conns[c].maps == s.conns[c].maps;
    case Notify(_, _, _) =>
  }

  lemma OthersSendNothing(s: S, step: NetStep)
    requires EnabledNet(s, step) && !IsArrival(step)
    ensures ApplyNet(s, step).sent == s.sent
  {
  }

  lemma StepSends(s: S, step: Step)
    requires Enabled(s, step)
    ensures SendsRegistered(s, Apply(s, step))
  {
    match step
    case Add(a) => assert ApplyAdd(s, a).sent == s.sent;
    case Rem(r) => assert ApplyRem(s, r).sent == s.sent;
    case Tear(t) => assert ApplyTear(s, t).sent == s.sent;
    case Net(n) => if IsArrival(n) { ArrivalSends(s, n); } else { OthersSendNothing(s, n); }
  }

  /** The step takes `x` out of the table. */
  predicate TearsDown(s: S, step: Step, x: Id) {
    step == Tear(TearDone) && s.stage.TearPooled? && s.stage.sid == x
  }

  /** No step registers `x` anew on any connection while the table has it. */
  lemma AddForgets(s: S, step: AddStep, x: Id)
    requires Reg(s) && Forgotten(s, x) && EnabledAdd(s, step)
    ensures Forgotten(ApplyAdd(s, step), x)
  {
    var s' := ApplyAdd(s, step);
    if step.AddCommit? {
      assert s.stage.sid != x;
    } else {
      AddRegistersNothing(s, step);
      assert forall c :: IsConn(s, c) ==> Maps(s)[c] == s.conns[c].maps && Maps(s')[c] == s'.conns[c].maps;
    }
  }

  lemma AddRegistersNothing(s: S, step: AddStep)
    requires EnabledAdd(s, step) && !step.AddCommit?
    ensures
      var s' := ApplyAdd(s, step);
      s'.eth == s.eth && |s'.conns| == |s.conns| && Maps(s') == Maps(s) && s.sm.idToParam.Keys <= s'.sm.idToParam.Keys
  {
    SameMaps(s, ApplyAdd(s, step));
  }

  lemma RemForgets(s: S, step: RemStep, x: Id)
    requires Forgotten(s, x) && EnabledRem(s, step)
    ensures Forgotten(ApplyRem(s, step), x)
  {
  }

  lemma TearForgets(s: S, step: TearStep, x: Id)
    requires Forgotten(s, x) && EnabledTear(s, step) && !TearsDown(s, Tear(step), x)
    ensures Forgotten(ApplyTear(s, step), x)
  {
  }

  lemma NetForgets(s: S, step: NetStep, x: Id)
    requires Forgotten(s, x) && EnabledNet(s, step)
    ensures Forgotten(ApplyNet(s, step), x)
  {
    var s' := ApplyNet(s, step);
    NetChanges(s, step);
    assert forall c :: IsConn(s, c) ==> Maps(s)[c] == s.conns[c].maps;
    assert forall c :: IsConn(s', c) ==> Maps(s')[c] == s'.conns[c].maps;
  }

  lemma StepForgets(s: S, step: Step, x: Id)
    requires Reg(s) && Forgotten(s, x) && Enabled(s, step) && !TearsDown(s, step, x)
    ensures Forgotten(Apply(s, step), x)
  {
    match step
    case Add(a) => AddForgets(s, a, x);
    case Rem(r) => RemForgets(s, r, x);
    case Tear(t) => TearForgets(s, t, x);
    case Net(n) => NetForgets(s, n, x);
  }

  /** No step of the run takes `x` out of the table. */
  ghost predicate StaysRegistered(s: S, steps: seq<Step>, x: Id)
    decreases |steps|
  {
    steps == [] || (StaysRegistered(s, Front(steps), x) && !TearsDown(Run(s, Front(steps)), Last(steps), x))
  }

  /** Nothing has been broadcast under `x` since `s`. */
  ghost predicate SilentSince(s: S, s': S, x: Id) {
    |s.sent| <= |s'.sent| && forall i :: |s.sent| <= i < |s'.sent| ==> s'.sent[i].sid != x
  }

  lemma StepIsSilent(s: S, r: S, step: Step, x: Id)
    requires Forgotten(r, x) && Enabled(r, step) && SilentSince(s, r, x)
    ensures SilentSince(s, Apply(r, step), x)
  {
    StepSends(r, step);
    var sent := Apply(r, step).sent;
    forall i | |s.sent| <= i < |sent|
      ensures sent[i].sid != x
    {
      if i < |r.sent| {
        assert sent[i] == r.sent[i];
      }
    }
  }

  /** Until a forgotten subscription is taken out of the table no connection has it and nothing is
      broadcast under its id: neither its clients nor those that join it meanwhile are sent anything. */
  lemma {:induction false} ForgottenIsSilent(s: S, steps: seq<Step>, x: Id)
    requires Reg(s) && Forgotten(s, x) && FreshRun(s, steps) && StaysRegistered(s, steps, x)
    ensures Reg(Run(s, steps)) && Forgotten(Run(s, steps), x)
    ensures SilentSince(s, Run(s, steps), x)
    decreases |steps|
  {
    if steps != [] {
      ForgottenIsSilent(s, Front(steps), x);
      var r := Run(s, Front(steps));
      if Enabled(r, Last(steps)) {
        StepReg(r, Last(steps));
        StepForgets(r, Last(steps), x);
        StepIsSilent(s, r, Last(steps), x);
      }
    }
  }

  /** It is taken out only when every client has left it, and then the next subscribe to its query goes
      upstream again. */
  lemma TakenOutWhenAllHaveLeft(s: S, x: Id, client: Client, cid: MsgId)
    requires Reg(s) && Tidy(s) && Enabled(s, Tear(TearDone)) && TearsDown(s, Tear(TearDone), x)
    ensures s.sm.Empty(x)
    ensures
      var s' := Apply(s, Tear(TearDone));
      var p := s.sm.idToParam[x];
      && x !in s'.sm.idToParam && p !in s'.sm.paramToId
      && EnterAdd(s', client, p, cid).stage == AddCall(client, p, cid)
  {
  }

  /** While it is in the table a subscribe to its query joins it, and goes nowhere. */
  lemma JoinsTheForgotten(s: S, x: Id, client: Client, cid: MsgId)
    requires Reg(s) && Forgotten(s, x)
    ensures
      var p := s.sm.idToParam[x];
      EnterAdd(s, client, p, cid).stage == AddJoin(client, p, cid, x)
  {
  }
}
