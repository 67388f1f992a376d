/** Replies reach the caller that asked, whatever becomes of connections and ids meanwhile. */
module Wire {
  import opened Messages
  import opened Subscriptions
  import opened Machine
  import opened Frames

  /** The node will send nothing more under `x` on this connection. */
  ghost predicate Quiet(conn: Conn, x: Id) {
    x !in conn.subs && (forall call :: (x, call) !in conn.owed)
  }

  /** Channel numbers are handed out once. */
  ghost predicate Numbered(conn: Conn) {
    && (forall x :: x in conn.resp ==> conn.resp[x].k < conn.made)
    && (conn.mode.Handing? ==> conn.mode.ch.k < conn.made)
  }

  /** A message that the reader holds is the answer to what the waiter asked, if the waiter still waits;
      an answer that it would look up is that of a waiter; a notification would find no channel. */
  ghost predicate LinkOk(eth: bool, conn: Conn, c: int, stage: Stage, calls: map<Tid, Flight>) {
    && Numbered(conn)
    && (conn.mode.Handing? && Asks(stage, calls, c, conn.mode.ch, conn.mode.x).Some? ==>
          Asks(stage, calls, c, conn.mode.ch, conn.mode.x) == conn.mode.answered)
    && (!conn.mode.Resent? ==> forall x, call :: (x, call) in conn.owed && x in conn.resp ==>
          Asks(stage, calls, c, conn.resp[x], x) == Some(call))
    && (!conn.mode.Up() ==> conn.subs == map[])
    && (!eth ==> forall x :: x in conn.subs && x in conn.resp ==> conn.mode.Handing? && conn.mode.x == x)
  }

  /** The reply that a caller got is the node's answer to what it asked, under the caller's own id. */
  ghost predicate Right(r: Returned) {
    r.answered == Some(Ask(r.msg)) && r.reply.id == r.msg.id
  }

  ghost predicate WireOk(s: S) {
    && (forall c :: IsConn(s, c) ==> LinkOk(s.eth, s.conns[c], c, s.stage, s.calls))
    && (forall r :: r in s.returned ==> Right(r))
  }

  /** Environment: an id is not drawn again on a connection whose node may still use it. */
  ghost predicate QuietStep(s: S, step: Step)
    requires Enabled(s, step)
  {
    match step
    case Add(AddSend(c, rid)) => Quiet(s.conns[c], rid)
    case Add(AddSendFail(c, rid, _)) => Quiet(s.conns[c], rid)
    case Tear(TearSend(rid)) => Quiet(s.conns[s.pool.conn[s.stage.sid]], rid)
    case Tear(TearSendFail(rid, _)) => Quiet(s.conns[s.pool.conn[s.stage.sid]], rid)
    case Net(CallSend(t, _, c, rid)) => Quiet(s.conns[c], rid)
    case Net(CallSendFail(t, c, rid, _)) => Quiet(s.conns[c], rid)
    case _ => true
  }

  // ----- one connection

  /** Whoever waits on a channel of connection `c` numbered below `made` waits for the same. */
  ghost predicate SameAsks(stage: Stage, calls: map<Tid, Flight>, stage': Stage, calls': map<Tid, Flight>, c: int,
                           made: nat)
  {
    forall ch: Chan, x: Id :: ch.k < made ==> Asks(stage', calls', c, ch, x) == Asks(stage, calls, c, ch, x)
  }

  /** The waiter for `x` leaves, everybody else waits for the same. */
  ghost predicate OneLeaves(stage: Stage, calls: map<Tid, Flight>, stage': Stage, calls': map<Tid, Flight>, c: int,
                            x: Id)
  {
    forall ch: Chan, y: Id ::
      || Asks(stage', calls', c, ch, y) == Asks(stage, calls, c, ch, y)
      || (y == x && Asks(stage', calls', c, ch, y) == None)
  }

  lemma Restage(eth: bool, conn: Conn, c: int, stage: Stage, calls: map<Tid, Flight>, stage': Stage,
                calls': map<Tid, Flight>)
    requires LinkOk(eth, conn, c, stage, calls) && SameAsks(stage, calls, stage', calls', c, conn.made)
    ensures LinkOk(eth, conn, c, stage', calls')
  {
  }

  lemma SendOk(eth: bool, conn: Conn, c: int, stage: Stage, calls: map<Tid, Flight>, stage': Stage,
               calls': map<Tid, Flight>,
               x: Id, w: Waiter, call: Call)
    requires LinkOk(eth, conn, c, stage, calls) && Quiet(conn, x)
    requires SameAsks(stage, calls, stage', calls', c, conn.made)
    requires Asks(stage', calls', c, Chan(w, conn.made), x) == Some(call)
    ensures LinkOk(eth, conn.Send(x, w, call), c, stage', calls')
  {
    Restage(eth, conn, c, stage, calls, stage', calls');
  }

  lemma SendFailsOk(eth: bool, conn: Conn, c: int, stage: Stage, calls: map<Tid, Flight>, x: Id, w: Waiter,
                    stored: bool)
    requires LinkOk(eth, conn, c, stage, calls) && Quiet(conn, x)
    ensures LinkOk(eth, conn.SendFails(x, w, stored), c, stage, calls)
  {
  }

  lemma LeaveOk(eth: bool, conn: Conn, c: int, stage: Stage, calls: map<Tid, Flight>, stage': Stage,
                calls': map<Tid, Flight>, x: Id)
    requires LinkOk(eth, conn, c, stage, calls) && OneLeaves(stage, calls, stage', calls', c, x)
    ensures LinkOk(eth, conn.Settle(x), c, stage', calls')
    ensures conn.mode.Handing? && conn.mode.x == x ==>
              LinkOk(eth, conn.Settle(x).(mode := conn.mode.Rested()), c, stage', calls')
  {
  }

  /** An answer finds the channel of the waiter, or none. */
  lemma AnswerOk(eth: bool, conn: Conn, c: int, stage: Stage, calls: map<Tid, Flight>, x: Id, call: Call, body: Msg,
                 sid: Id, obeyed: bool)
    requires LinkOk(eth, conn, c, stage, calls) && conn.mode.Reading? && (x, call) in conn.owed
    ensures
      var after := conn.Answer(eth, x, call, sid, obeyed);
      && (x !in conn.resp ==> LinkOk(eth, after, c, stage, calls))
      && (x in conn.resp ==>
            LinkOk(eth, after.(mode := Handing(conn.resp[x], x, Some(call), body, sid, false)), c, stage, calls))
  {
    assert conn.Answer(eth, x, call, sid, obeyed).owed == conn.owed - {(x, call)};
  }

  // ----- the whole machine

  /** Connection `c` changes and is right; on the others everybody waits for the same. */
  lemma Assemble(s: S, s': S, c: int)
    requires WireOk(s) && IsConn(s, c) && |s'.conns| == |s.conns| && s'.eth == s.eth
    requires forall d :: IsConn(s, d) && d != c ==> s'.conns[d] == s.conns[d]
    requires LinkOk(s'.eth, s'.conns[c], c, s'.stage, s'.calls)
    requires forall d :: IsConn(s, d) && d != c ==> SameAsks(s.stage, s.calls, s'.stage, s'.calls, d, s.conns[d].made)
    requires forall r :: r in s'.returned ==> r in s.returned || Right(r)
    ensures WireOk(s')
  {
    forall d | IsConn(s', d)
      ensures LinkOk(s'.eth, s'.conns[d], d, s'.stage, s'.calls)
    {
      if d != c {
        Restage(s.eth, s.conns[d], d, s.stage, s.calls, s'.stage, s'.calls);
      }
    }
  }

  /** The holder of the mutex, waiting for nothing before and after, moves on. */
  lemma StageMoves(s: S, s': S)
    requires WireOk(s) && !s.stage.AddSent? && !s.stage.TearSent? && !s'.stage.AddSent? && !s'.stage.TearSent?
    requires s'.eth == s.eth && s'.calls == s.calls && s'.returned == s.returned && |s'.conns| == |s.conns|
    requires forall c :: IsConn(s, c) ==> s'.conns[c] == s.conns[c].(maps := s'.conns[c].maps)
    ensures WireOk(s')
  {
    forall d | IsConn(s', d)
      ensures LinkOk(s'.eth, s'.conns[d], d, s'.stage, s'.calls)
    {
      Restage(s.eth, s.conns[d], d, s.stage, s.calls, s'.stage, s'.calls);
    }
  }

  lemma SendAddWire(s: S, c: int, rid: Id)
    requires WireOk(s) && CanSubscribe(s, c) && Quiet(s.conns[c], rid)
    ensures WireOk(SendAdd(s, c, rid))
  {
    var s' := SendAdd(s, c, rid);
    SendOk(s.eth, s.conns[c], c, s.stage, s.calls, s'.stage, s'.calls, rid, Holder, Sub(s.stage.param));
    Assemble(s, s', c);
  }

  lemma SendTearWire(s: S, rid: Id)
    requires WireOk(s) && CanTear(s) && Quiet(s.conns[s.pool.conn[s.stage.sid]], rid)
    ensures WireOk(SendTear(s, rid))
  {
    var s' := SendTear(s, rid);
    var c := s.pool.conn[s.stage.sid];
    SendOk(s.eth, s.conns[c], c, s.stage, s.calls, s'.stage, s'.calls, rid, Holder, Unsub(s'.stage.param, s.stage.sid));
    Assemble(s, s', c);
  }

  lemma SendCallWire(s: S, t: Tid, msg: Msg, c: int, rid: Id)
    requires WireOk(s) && IsConn(s, c) && t !in s.calls && Quiet(s.conns[c], rid)
    ensures WireOk(SendCall(s, t, msg, c, rid))
  {
    var s' := SendCall(s, t, msg, c, rid);
    SendOk(s.eth, s.conns[c], c, s.stage, s.calls, s'.stage, s'.calls, rid, Caller(t), Ask(msg));
    Assemble(s, s', c);
  }

  /** A send fails after the channel was stored: the entry stays, and nothing will come for it. */
  lemma SendFailsWire(s: S, s': S, c: int, rid: Id, w: Waiter, stored: bool)
    requires WireOk(s) && IsConn(s, c) && Quiet(s.conns[c], rid)
    requires s'.eth == s.eth && s'.conns == s.conns[c := s.conns[c].SendFails(rid, w, stored)]
    requires s'.calls == s.calls && s'.returned == s.returned
    requires s'.stage == s.stage || (!s.stage.AddSent? && !s.stage.TearSent? && s'.stage.Free?)
    ensures WireOk(s')
  {
    Restage(s.eth, s.conns[c], c, s.stage, s.calls, s'.stage, s'.calls);
    SendFailsOk(s.eth, s.conns[c], c, s'.stage, s'.calls, rid, w, stored);
    Assemble(s, s', c);
  }

  /** A timeout: the entry is deleted and the waiter leaves, even while the reader holds its reply. */
  lemma TimeOutWire(s: S, s': S, c: int, rid: Id)
    requires WireOk(s) && IsConn(s, c)
    requires s'.eth == s.eth && s'.conns == s.conns[c := s.conns[c].Settle(rid)] && s'.returned == s.returned
    requires
      || (s'.calls == s.calls && (s.stage.AddSent? || s.stage.TearSent?) && s.stage.c == c && s.stage.rid == rid
          && s'.stage.Free?)
      || (s'.stage == s.stage && exists t ::
            t in s.calls && s.calls[t].c == c && s.calls[t].rid == rid && s'.calls == s.calls - {t})
    ensures WireOk(s')
  {
    LeaveOk(s.eth, s.conns[c], c, s.stage, s.calls, s'.stage, s'.calls, rid);
    Assemble(s, s', c);
  }

  lemma HandLeaves(s: S, c: int)
    requires CanHandOver(s, c)
    ensures OneLeaves(s.stage, s.calls, Hand(s, c).stage, Hand(s, c).calls, c, s.conns[c].mode.x)
    ensures forall d :: IsConn(s, d) && d != c ==>
              SameAsks(s.stage, s.calls, Hand(s, c).stage, Hand(s, c).calls, d, s.conns[d].made)
  {
  }

  /** The message is handed to the one that waits for it, never to anybody else. */
  lemma HandWire(s: S, c: int)
    requires WireOk(s) && CanHandOver(s, c)
    ensures WireOk(Hand(s, c))
  {
    var s' := Hand(s, c);
    HandLeaves(s, c);
    LeaveOk(s.eth, s.conns[c], c, s.stage, s.calls, s'.stage, s'.calls, s.conns[c].mode.x);
    assert s'.conns[c] == s.conns[c].Settle(s.conns[c].mode.x).(mode := s.conns[c].mode.Rested());
    Assemble(s, s', c);
  }

  lemma ReplyWire(s: S, c: int, x: Id, call: Call, body: Msg, sid: Id, obeyed: bool)
    requires WireOk(s) && EnabledNet(s, Reply(c, x, call, body, sid, obeyed))
    ensures WireOk(ApplyNet(s, Reply(c, x, call, body, sid, obeyed)))
  {
    AnswerOk(s.eth, s.conns[c], c, s.stage, s.calls, x, call, body, sid, obeyed);
    var s' := ApplyNet(s, Reply(c, x, call, body, sid, obeyed));
    ReceiveChanges(Answered(s, c, x, call, sid, obeyed), c, x, Some(call), body, sid);
    Assemble(s, s', c);
  }

  /** A notification finds no channel under its id. */
  lemma NotifyWire(s: S, c: int, x: Id, body: Msg)
    requires WireOk(s) && EnabledNet(s, Notify(c, x, body))
    ensures ApplyNet(s, Notify(c, x, body)) == (if x in s.conns[c].maps.byId then Spread(s, x, body) else s)
    ensures WireOk(ApplyNet(s, Notify(c, x, body)))
  {
    assert LinkOk(s.eth, s.conns[c], c, s.stage, s.calls);
  }

  lemma ModeWire(s: S, step: NetStep)
    requires WireOk(s) && EnabledNet(s, step)
    requires step.Drop? || step.Reconnect? || IsResub(step)
    ensures WireOk(ApplyNet(s, step))
  {
    Assemble(s, ApplyNet(s, step), step.c);
  }

  lemma AddStepWire(s: S, step: AddStep)
    requires WireOk(s) && EnabledAdd(s, step) && QuietStep(s, Add(step))
    ensures WireOk(ApplyAdd(s, step))
  {
    var s' := ApplyAdd(s, step);
    match step
    case AddSend(c, rid) => SendAddWire(s, c, rid);
    case AddSendFail(c, rid, stored) => SendFailsWire(s, s', c, rid, Holder, stored);
    case AddTimeout => TimeOutWire(s, s', s.stage.c, s.stage.rid);
    case _ => StageMoves(s, s');
  }

  lemma RemStepWire(s: S, step: RemStep)
    requires WireOk(s) && EnabledRem(s, step)
    ensures WireOk(ApplyRem(s, step))
  {
    var s' := ApplyRem(s, step);
    if s'.stage != s.stage {
      StageMoves(s, s');
    }
  }

  lemma TearStepWire(s: S, step: TearStep)
    requires WireOk(s) && EnabledTear(s, step) && QuietStep(s, Tear(step))
    ensures WireOk(ApplyTear(s, step))
  {
    var s' := ApplyTear(s, step);
    match step
    case TearSend(rid) => SendTearWire(s, rid);
    case TearSendFail(rid, stored) => SendFailsWire(s, s', s.pool.conn[s.stage.sid], rid, Holder, stored);
    case TearTimeout => TimeOutWire(s, s', s.stage.c, s.stage.rid);
    case _ => StageMoves(s, s');
  }

  lemma NetStepWire(s: S, step: NetStep)
    requires WireOk(s) && EnabledNet(s, step) && QuietStep(s, Net(step))
    ensures WireOk(ApplyNet(s, step))
  {
    var s' := ApplyNet(s, step);
    match step
    case CallSend(t, msg, c, rid) => SendCallWire(s, t, msg, c, rid);
    case CallSendFail(t, c, rid, stored) => SendFailsWire(s, s', c, rid, Caller(t), stored);
    case CallTimeout(t) => TimeOutWire(s, s', s.calls[t].c, s.calls[t].rid);
    case Reply(c, x, call, body, sid, obeyed) => ReplyWire(s, c, x, call, body, sid, obeyed);
    case Notify(c, x, body) => NotifyWire(s, c, x, body);
    case HandOver(c) => HandWire(s, c);
    case _ => ModeWire(s, step);
  }

  /** Every quiet step keeps the invariant: failed re-submissions and resets included. */
  lemma StepWire(s: S, step: Step)
    requires WireOk(s) && Enabled(s, step) && QuietStep(s, step)
    ensures WireOk(Apply(s, step))
  {
    match step
    case Add(a) => AddStepWire(s, a);
    case Rem(r) => RemStepWire(s, r);
    case Tear(t) => TearStepWire(s, t);
    case Net(n) => NetStepWire(s, n);
  }

  /** A run in which no id is drawn on a connection whose node may still use it. */
  ghost predicate QuietRun(s: S, steps: seq<Step>)
    decreases |steps|
  {
    steps == [] ||
    (QuietRun(s, Front(steps)) &&
     (Enabled(Run(s, Front(steps)), Last(steps)) ==> QuietStep(Run(s, Front(steps)), Last(steps))))
  }

  lemma QuietSnoc(s: S, steps: seq<Step>, step: Step)
    requires QuietRun(s, steps) && (Enabled(Run(s, steps), step) ==> QuietStep(Run(s, steps), step))
    ensures QuietRun(s, steps + [step])
  {
    assert Front(steps + [step]) == steps && Last(steps + [step]) == step;
  }

  lemma {:induction false} RunWire(eth: bool, n: nat, steps: seq<Step>)
    requires QuietRun(Init(eth, n), steps)
    ensures WireOk(Run(Init(eth, n), steps))
    decreases |steps|
  {
    if steps != [] {
      RunWire(eth, n, Front(steps));
      var s := Run(Init(eth, n), Front(steps));
      if Enabled(s, Last(steps)) {
        StepWire(s, Last(steps));
      }
    }
  }
}
