/** What becomes of a Cosmos connection that drops while it holds subscriptions. */
module Recovery {
  import opened Messages
  import opened Subscriptions
  import opened Machine
  import opened Frames
  import opened Registry
  import opened Wire
  import opened Limits
  import opened Wedges

  /** The query whose entry in connection `c` the holder of the mutex is about to delete. */
  function Leaving(stage: Stage, c: int): set<Param> {
    if stage.TearGot? && stage.c == c then {stage.param} else {}
  }

  /** The holder of the mutex is handed a message, is about to write or delete an entry of connection `c`,
      and the entry is that of `p`. */
  predicate Touches(s: S, c: int, p: Param) {
    || ((s.stage.AddGot? || s.stage.TearGot?) && s.stage.c == c && s.stage.param == p)
    || (CanHandOver(s, c) && s.conns[c].mode.ch.w.Holder? && s.stage.param == p)
  }

  /** The connection is lost, and its reader is trying to come back or still has to notice; it has `p`
      registered under `x`, and re-submits it first. */
  ghost predicate Lists(conn: Conn, x: Id, p: Param) {
    && StillListed(conn.maps, (x, p)) && Numbered(conn) && !conn.mode.Up()
    && (conn.mode.Resub? || conn.mode.Resent? ==> (x, p) in conn.mode.todo)
  }

  ghost predicate Trying(s: S, c: int, x: Id, p: Param) {
    !s.eth && IsConn(s, c) && Lists(s.conns[c], x, p) && !Touches(s, c, p)
  }

  /** The connection still tries, and its reader has looked up no message. */
  ghost predicate GoesOn(s: S, s': S, c: int, x: Id, p: Param)
    requires IsConn(s, c)
  {
    Trying(s', c, x, p) && (s'.conns[c].mode.Handing? ==> s.conns[c].mode.Handing?)
  }

  lemma AddTries(s: S, step: AddStep, c: int, x: Id, p: Param)
    requires Trying(s, c, x, p) && EnabledAdd(s, step)
    ensures GoesOn(s, ApplyAdd(s, step), c, x, p)
  {
  }

  lemma TearTries(s: S, step: TearStep, c: int, x: Id, p: Param)
    requires Trying(s, c, x, p) && EnabledTear(s, step)
    ensures GoesOn(s, ApplyTear(s, step), c, x, p)
  {
  }

  lemma RemTries(s: S, step: RemStep, c: int, x: Id, p: Param)
    requires Trying(s, c, x, p) && EnabledRem(s, step)
    ensures GoesOn(s, ApplyRem(s, step), c, x, p)
  {
  }

  lemma ArrivalTries(s: S, step: NetStep, c: int, x: Id, p: Param)
    requires Trying(s, c, x, p) && EnabledNet(s, step) && IsArrival(step)
    ensures GoesOn(s, ApplyNet(s, step), c, x, p)
  {
    ArrivalChanges(s, step);
    match step
    case Reply(d, y, call, body, sid, obeyed) =>
      ReceiveElsewhere(Answered(s, d, y, call, sid, obeyed), d, y, Some(call), body, sid, c);
    case Notify(d, y, body) => ReceiveElsewhere(s, d, y, None, body, y, c);
  }

  lemma CallTries(s: S, step: NetStep, c: int, x: Id, p: Param)
    requires Trying(s, c, x, p) && EnabledNet(s, step)
    requires step.CallSend? || step.CallSendFail? || step.CallTimeout?
    ensures GoesOn(s, ApplyNet(s, step), c, x, p)
  {
  }

  /** What the holder of the mutex is handed comes from another connection, or is about another query. */
  lemma HandTries(s: S, d: int, c: int, x: Id, p: Param)
    requires Trying(s, c, x, p) && CanHandOver(s, d)
    ensures GoesOn(s, Hand(s, d), c, x, p)
  {
    if d == c {
      assert Hand(s, d).conns[c].mode.Down?;
    } else {
      assert Hand(s, d).conns[c] == s.conns[c];
    }
  }

  lemma ModeTries(s: S, step: NetStep, c: int, x: Id, p: Param)
    requires Trying(s, c, x, p) && EnabledNet(s, step)
    requires step.Drop? || step.Reconnect? || IsResub(step)
    ensures GoesOn(s, ApplyNet(s, step), c, x, p)
  {
    var s' := ApplyNet(s, step);
    assert s'.stage == s.stage && s'.calls == s.calls && s'.eth == s.eth;
    if step.c == c {
      assert Lists(s'.conns[c], x, p);
    }
  }

  lemma StepTries(s: S, step: Step, c: int, x: Id, p: Param)
    requires Trying(s, c, x, p) && Enabled(s, step)
    ensures GoesOn(s, Apply(s, step), c, x, p)
  {
    match step
    case Add(a) => AddTries(s, a, c, x, p);
    case Rem(r) => RemTries(s, r, c, x, p);
    case Tear(t) => TearTries(s, t, c, x, p);
    case Net(n) =>
      if IsArrival(n) { ArrivalTries(s, n, c, x, p); }
      else if n.HandOver? { HandTries(s, n.c, c, x, p); }
      else if IsCall(n) { CallTries(s, n, c, x, p); }
      else { ModeTries(s, n, c, x, p); }
  }

  /** A lost connection that has a subscription to re-submit tries for ever: in no schedule does it read a
      message again, and the subscription stays registered. */
  lemma {:induction false} DeadForGood(s: S, steps: seq<Step>, c: int, x: Id, p: Param)
    requires Trying(s, c, x, p)
    ensures Trying(Run(s, steps), c, x, p)
    ensures forall step: NetStep :: IsArrival(step) && step.c == c ==> !Enabled(Run(s, steps), Net(step))
    ensures !s.conns[c].mode.Handing? ==> !Enabled(Run(s, steps), Net(HandOver(c)))
    ensures !s.conns[c].mode.Handing? ==> !Run(s, steps).conns[c].mode.Handing?
    decreases |steps|
  {
    if steps != [] {
      DeadForGood(s, Front(steps), c, x, p);
      var r := Run(s, Front(steps));
      if Enabled(r, Last(steps)) {
        StepTries(r, Last(steps), c, x, p);
      }
    }
  }

  // ----- when it comes back

  /** The holder of the mutex once the reader of `c` has handed over what it holds. */
  function StageThen(s: S, c: int): Stage {
    if CanHandOver(s, c) then Hand(s, c).stage else s.stage
  }

  /** A Cosmos connection that drops can ever read again exactly when its reader is not blocked on a
      message that nobody receives, and it holds no subscription, or only one whose unsubscribe the node
      has answered already. */
  lemma DroppedComesBackIff(s: S, c: int)
    requires Reg(s) && AllNumbered(s) && !s.eth && IsConn(s, c) && s.conns[c].mode.Up()
    ensures
      (exists steps :: Reads(Run(Lost(s, c), steps), c)) <==>
      !Wedged(s, c) && s.conns[c].maps.byParam.Keys <= Leaving(StageThen(s, c), c)
  {
    if Wedged(s, c) {
      forall steps
        ensures !Reads(Run(Lost(s, c), steps), c)
      {
        WedgedStays(Lost(s, c), steps, c);
      }
    } else if s.conns[c].maps.byParam.Keys <= Leaving(StageThen(s, c), c) {
      DownComesBack(s, c);
    } else {
      var p :| p in s.conns[c].maps.byParam && p !in Leaving(StageThen(s, c), c);
      LadenTries(s, c, p);
      forall steps
        ensures !Reads(Run(Lost(s, c), steps), c)
      {
        DeadForGood(Lost(s, c), steps, c, s.conns[c].maps.byParam[p], p);
      }
    }
  }

  lemma LadenTries(s: S, c: int, p: Param)
    requires Reg(s) && AllNumbered(s) && !s.eth && IsConn(s, c) && s.conns[c].mode.Up()
    requires p in s.conns[c].maps.byParam && p !in Leaving(StageThen(s, c), c)
    ensures Trying(Lost(s, c), c, s.conns[c].maps.byParam[p], p)
  {
    assert Numbered(s.conns[c]);
    if s.stage.AddGot? || s.stage.AddSent? {
      KnownQuery(s, p, c);
    }
  }

  /** The reader notices the loss at once, or once it has handed the message over. */
  lemma DownComesBack(s: S, c: int)
    requires !s.eth && IsConn(s, c) && s.conns[c].mode.Up() && !Wedged(s, c)
    requires s.conns[c].maps.byParam.Keys <= Leaving(StageThen(s, c), c)
    ensures exists all :: Reads(Run(Lost(s, c), all), c)
  {
    var lost := Lost(s, c);
    if s.conns[c].mode.Handing? {
      var s1 := Hand(lost, c);
      Chain(lost, [], lost, Net(HandOver(c)), s1);
      assert s1.conns[c].mode.Down? && s1.conns[c].maps == s.conns[c].maps && s1.stage == StageThen(s, c);
      LightComesBack(s1, lost, [] + [Net(HandOver(c))], c);
    } else {
      LightComesBack(lost, lost, [], c);
    }
  }

  lemma LightComesBack(s: S, s0: S, steps: seq<Step>, c: int)
    requires Run(s0, steps) == s && !s.eth && IsConn(s, c) && s.conns[c].mode.Down?
    requires s.conns[c].maps.byParam.Keys <= Leaving(s.stage, c)
    ensures exists all :: Reads(Run(s0, all), c)
  {
    if s.conns[c].maps.byParam == map[] {
      EmptyComesBack(s, s0, steps, c);
    } else {
      var s1 := CommitTear(s);
      Chain(s0, steps, s, Tear(TearCommit), s1);
      assert s1.conns[c].maps.byParam == map[];
      EmptyComesBack(s1, s0, steps + [Tear(TearCommit)], c);
    }
  }

  lemma EmptyComesBack(s: S, s0: S, steps: seq<Step>, c: int)
    requires Run(s0, steps) == s && !s.eth && IsConn(s, c)
    requires s.conns[c].mode.Down? && s.conns[c].maps.byParam == map[]
    ensures exists all :: Reads(Run(s0, all), c)
  {
    var back, skip := Net(Reconnect(c, [])), Net(ResubSkip(c));
    var s1 := Reconnected(s, c, []);
    Chain(s0, steps, s, back, s1);
    Chain(s0, steps + [back], s1, skip, SkipResub(s1, c));
    assert Reads(Run(s0, steps + [back] + [skip]), c);
  }

  // ----- a lost connection

  /** Over a lost connection the node owes nothing and notifies of nothing. */
  ghost predicate LostIsSilent(s: S) {
    forall c :: IsConn(s, c) && s.conns[c].mode.Cut() ==> s.conns[c].owed == {} && s.conns[c].subs == map[]
  }

  lemma AddStaysSilent(s: S, step: AddStep)
    requires LostIsSilent(s) && EnabledAdd(s, step)
    ensures LostIsSilent(ApplyAdd(s, step))
  {
  }

  lemma TearStaysSilent(s: S, step: TearStep)
    requires LostIsSilent(s) && EnabledTear(s, step)
    ensures LostIsSilent(ApplyTear(s, step))
  {
  }

  lemma ArrivalStaysSilent(s: S, c: int, x: Id, answered: Option<Call>, body: Msg, sid: Id)
    requires LostIsSilent(s) && IsConn(s, c)
    ensures LostIsSilent(Receive(s, c, x, answered, body, sid))
  {
  }

  lemma CallStaysSilent(s: S, step: NetStep)
    requires LostIsSilent(s) && EnabledNet(s, step) && IsCall(step)
    ensures LostIsSilent(ApplyNet(s, step))
  {
  }

  lemma ModeStaysSilent(s: S, step: NetStep)
    requires LostIsSilent(s) && EnabledNet(s, step) && !IsCall(step) && !IsArrival(step)
    ensures LostIsSilent(ApplyNet(s, step))
  {
  }

  lemma NetStaysSilent(s: S, step: NetStep)
    requires LostIsSilent(s) && EnabledNet(s, step)
    ensures LostIsSilent(ApplyNet(s, step))
  {
    if IsCall(step) {
      CallStaysSilent(s, step);
    } else if step.Reply? {
      var s1 := Answered(s, step.c, step.x, step.call, step.sid, step.obeyed);
      assert forall c :: IsConn(s1, c) && s1.conns[c].mode.Cut() ==> s1.conns[c] == s.conns[c];
      ArrivalStaysSilent(s1, step.c, step.x, Some(step.call), step.body, step.sid);
    } else if step.Notify? {
      ArrivalStaysSilent(s, step.c, step.x, None, step.body, step.x);
    } else {
      ModeStaysSilent(s, step);
    }
  }

  /** What is sent over a lost connection reaches no node, in any schedule. */
  lemma {:induction false} LostConnectionsAreSilent(eth: bool, n: nat, steps: seq<Step>)
    ensures LostIsSilent(Run(Init(eth, n), steps))
    decreases |steps|
  {
    if steps != [] {
      LostConnectionsAreSilent(eth, n, Front(steps));
      var s := Run(Init(eth, n), Front(steps));
      if Enabled(s, Last(steps)) {
        match Last(steps)
        case Add(a) => AddStaysSilent(s, a);
        case Rem(r) => assert ApplyRem(s, r).conns == s.conns;
        case Tear(t) => TearStaysSilent(s, t);
        case Net(m) => NetStaysSilent(s, m);
      }
    }
  }
}
