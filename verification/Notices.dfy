/** Notifications belong to the subscription under whose id they come. */
module Notices {
  import opened Messages
  import opened Subscriptions
  import opened Machine
  import opened Frames
  import opened Registry
  import opened Ownership
  import opened Wire

  /** Which answers the node must not owe under a registered id: those to subscribes, or, where every
      id has one owner, all. */
  predicate Counts(owned: bool, call: Call) {
    owned || call.Sub?
  }

  /** Under the id of a subscription that is about to be registered the node notifies for its query,
      and for Cosmos it owes no answer that counts. */
  ghost predicate GotOk(eth: bool, owned: bool, conn: Conn, param: Param, sid: Id) {
    && (sid in conn.subs ==> conn.subs[sid] == param)
    && (!eth ==> forall call :: (sid, call) in conn.owed ==> !Counts(owned, call))
  }

  /** The reader holds the reply to the holder's subscribe, which still waits for it. */
  ghost predicate Arriving(conn: Conn, c: int, stage: Stage, calls: map<Tid, Flight>) {
    && stage.AddSent? && conn.mode.Handing? && conn.mode.ch.w.Holder?
    && Asks(stage, calls, c, conn.mode.ch, conn.mode.x).Some?
  }

  /** What the node notifies is what the connection has registered, or is about to. */
  ghost predicate SubsOk(eth: bool, owned: bool, conn: Conn, c: int, stage: Stage, calls: map<Tid, Flight>) {
    && (forall x :: x in conn.subs && x in conn.maps.byId ==> conn.subs[x] == conn.maps.byId[x])
    && (!eth ==> forall x, call :: (x, call) in conn.owed && x in conn.maps.byId && Counts(owned, call) ==>
          conn.mode.Resent?)
    && (stage.AddGot? && stage.c == c ==> GotOk(eth, owned, conn, stage.param, stage.sid))
    && (Arriving(conn, c, stage, calls) ==>
          GotOk(eth, owned, conn, stage.param, if eth then conn.mode.sid else conn.mode.x))
  }

  ghost predicate NoticesOk(s: S, owned: bool) {
    forall c :: IsConn(s, c) ==> SubsOk(s.eth, owned, s.conns[c], c, s.stage, s.calls)
  }

  /** Environment: an Ethereum node does not assign an id that is in use on the connection. */
  ghost predicate Distinct(s: S, step: Step)
    requires Enabled(s, step)
  {
    match step
    case Net(Reply(c, _, call, _, sid, _)) => s.eth && call.Sub? ==> Unassigned(s, c, sid)
    case _ => true
  }

  ghost predicate Unassigned(s: S, c: int, sid: Id)
    requires IsConn(s, c)
  {
    sid !in s.conns[c].subs && sid !in s.conns[c].maps.byId && !(s.stage.AddGot? && s.stage.sid == sid)
  }

  // ----- one connection

  /** No registered or arriving subscription has the id `x`. */
  ghost predicate Outside(eth: bool, conn: Conn, c: int, stage: Stage, calls: map<Tid, Flight>, x: Id) {
    && (!eth ==> x !in conn.maps.byId && !(stage.AddGot? && stage.sid == x))
    && (Arriving(conn, c, stage, calls) ==> conn.mode.x != x)
  }

  /** Where ids are owned, one that the generator does not hold is outside. */
  lemma DrawnOutside(s: S, c: int, x: Id)
    requires OwnS(s) && (!s.eth ==> Reg(s)) && IsConn(s, c) && x !in s.gen
    ensures Outside(s.eth, s.conns[c], c, s.stage, s.calls, x)
  {
    assert Maps(s)[c] == s.conns[c].maps;
    assert !s.eth && x in Maps(s)[c].byId ==> Held(Maps(s), x);
  }

  /** A request under an id that is not in use; nothing arrives for the holder on a new channel. */
  lemma SendSubs(eth: bool, owned: bool, conn: Conn, c: int, stage: Stage, calls: map<Tid, Flight>,
                 stage': Stage, calls': map<Tid, Flight>, x: Id, w: Waiter, call: Call)
    requires SubsOk(eth, owned, conn, c, stage, calls) && Numbered(conn)
    requires SameAsks(stage, calls, stage', calls', c, conn.made)
    requires Counts(owned, call) ==> Outside(eth, conn, c, stage, calls, x)
    requires stage' == stage || (!stage.AddSent? && !stage.AddGot? && !stage'.AddGot?)
    ensures SubsOk(eth, owned, conn.Send(x, w, call), c, stage', calls')
  {
  }

  /** The node's answer to a request for which nobody waits. */
  lemma AnswerDropped(eth: bool, owned: bool, conn: Conn, c: int, stage: Stage, calls: map<Tid, Flight>,
                      x: Id, call: Call, sid: Id, obeyed: bool)
    requires SubsOk(eth, owned, conn, c, stage, calls)
    requires conn.mode.Reading? && (x, call) in conn.owed
    requires eth && call.Sub? ==> sid !in conn.subs && sid !in conn.maps.byId && !(stage.AddGot? && stage.sid == sid)
    ensures SubsOk(eth, owned, conn.Answer(eth, x, call, sid, obeyed), c, stage, calls)
  {
    assert conn.Answer(eth, x, call, sid, obeyed).owed == conn.owed - {(x, call)};
  }

  /** The node's answer to a request for which the reader finds a channel. */
  lemma AnswerHeld(eth: bool, owned: bool, conn: Conn, c: int, stage: Stage, calls: map<Tid, Flight>,
                   x: Id, call: Call, body: Msg, sid: Id, obeyed: bool)
    requires LinkOk(eth, conn, c, stage, calls) && SubsOk(eth, owned, conn, c, stage, calls)
    requires conn.mode.Reading? && (x, call) in conn.owed && x in conn.resp
    requires eth && call.Sub? ==> sid !in conn.subs && sid !in conn.maps.byId && !(stage.AddGot? && stage.sid == sid)
    ensures
      var after := conn.Answer(eth, x, call, sid, obeyed);
      SubsOk(eth, owned, after.(mode := Handing(conn.resp[x], x, Some(call), body, sid, false)), c, stage, calls)
  {
    var held := Handing(conn.resp[x], x, Some(call), body, sid, false);
    var after := conn.Answer(eth, x, call, sid, obeyed).(mode := held);
    AnswerDropped(eth, owned, conn, c, stage, calls, x, call, sid, obeyed);
    assert Asks(stage, calls, c, conn.resp[x], x) == Some(call);
    assert forall other :: (x, other) in conn.owed ==> other == call;
    if Arriving(after, c, stage, calls) {
      AnswerArrives(eth, owned, conn, after, stage.param, x, call, sid, obeyed);
    }
  }

  /** The answer to the holder's subscribe: the node notifies for its query if for anything. */
  lemma AnswerArrives(eth: bool, owned: bool, conn: Conn, after: Conn, param: Param, x: Id, call: Call, sid: Id,
                      obeyed: bool)
    requires call == Sub(param) && (forall other :: (x, other) in conn.owed ==> other == call)
    requires (if eth then sid else x) !in conn.subs
    requires after.owed == conn.owed - {(x, call)} && after.subs == conn.Answer(eth, x, call, sid, obeyed).subs
    ensures GotOk(eth, owned, after, param, if eth then sid else x)
  {
  }

  // ----- every step

  /** Program counters move and channels come and go; nothing is sent, answered or registered. */
  ghost predicate NothingPasses(s: S, s': S) {
    && s'.eth == s.eth && |s'.conns| == |s.conns|
    && (forall c :: IsConn(s, c) ==>
          s'.conns[c].maps == s.conns[c].maps && s'.conns[c].mode == s.conns[c].mode
          && s'.conns[c].owed == s.conns[c].owed && s'.conns[c].subs == s.conns[c].subs)
    && (s'.stage == s.stage || (!s'.stage.AddGot? && !s'.stage.AddSent? && s'.calls == s.calls))
  }

  lemma StillOk(s: S, s': S, owned: bool)
    requires NoticesOk(s, owned) && NothingPasses(s, s')
    ensures NoticesOk(s', owned)
  {
  }

  lemma AddPassesNothing(s: S, step: AddStep)
    requires EnabledAdd(s, step) && !step.AddSend? && !step.AddCommit?
    ensures NothingPasses(s, ApplyAdd(s, step))
  {
  }

  lemma CallPassesNothing(s: S, step: NetStep)
    requires EnabledNet(s, step) && (step.CallSendFail? || step.CallTimeout?)
    ensures NothingPasses(s, ApplyNet(s, step))
  {
  }

  lemma TearPassesNothing(s: S, step: TearStep)
    requires EnabledTear(s, step) && !step.TearSend? && !step.TearCommit?
    ensures NothingPasses(s, ApplyTear(s, step))
  {
  }

  /** Connection `c` changes; the holder of the mutex waits on no other. */
  lemma AssembleNotices(s: S, s': S, owned: bool, c: int)
    requires NoticesOk(s, owned) && IsConn(s, c) && |s'.conns| == |s.conns| && s'.eth == s.eth
    requires forall d :: IsConn(s, d) && d != c ==> s'.conns[d] == s.conns[d]
    requires SubsOk(s'.eth, owned, s'.conns[c], c, s'.stage, s'.calls)
    requires s'.stage == s.stage || (s'.stage.AddSent? || s'.stage.AddGot? ==> s'.stage.c == c)
    ensures NoticesOk(s', owned)
  {
    forall d | IsConn(s', d)
      ensures SubsOk(s'.eth, owned, s'.conns[d], d, s'.stage, s'.calls)
    {
      assert SubsOk(s.eth, owned, s.conns[d], d, s.stage, s.calls);
    }
  }

  lemma SendAddNotices(s: S, owned: bool, c: int, rid: Id)
    requires WireOk(s) && NoticesOk(s, owned) && CanSubscribe(s, c)
    requires !s.eth ==> Reg(s) && Fresh(s, Add(AddSend(c, rid)))
    ensures NoticesOk(SendAdd(s, c, rid), owned)
  {
    var s' := SendAdd(s, c, rid);
    assert Maps(s)[c] == s.conns[c].maps;
    if !s.eth {
      UnknownEverywhere(s, rid);
    }
    assert LinkOk(s.eth, s.conns[c], c, s.stage, s.calls);
    SendSubs(s.eth, owned, s.conns[c], c, s.stage, s.calls, s'.stage, s'.calls, rid, Holder, Sub(s.stage.param));
    AssembleNotices(s, s', owned, c);
  }

  lemma SendTearNotices(s: S, owned: bool, rid: Id)
    requires WireOk(s) && NoticesOk(s, owned) && CanTear(s) && rid !in s.gen
    requires owned ==> OwnS(s) && (!s.eth ==> Reg(s))
    ensures NoticesOk(SendTear(s, rid), owned)
  {
    var s' := SendTear(s, rid);
    var c := s.pool.conn[s.stage.sid];
    var call := Unsub(s'.stage.param, s.stage.sid);
    if owned {
      DrawnOutside(s, c, rid);
    }
    assert LinkOk(s.eth, s.conns[c], c, s.stage, s.calls);
    SendSubs(s.eth, owned, s.conns[c], c, s.stage, s.calls, s'.stage, s'.calls, rid, Holder, call);
    AssembleNotices(s, s', owned, c);
  }

  lemma SendCallNotices(s: S, owned: bool, t: Tid, msg: Msg, c: int, rid: Id)
    requires WireOk(s) && NoticesOk(s, owned) && t !in s.calls && CanDraw(s, c, rid)
    requires owned ==> OwnS(s) && (!s.eth ==> Reg(s))
    ensures NoticesOk(SendCall(s, t, msg, c, rid), owned)
  {
    var s' := SendCall(s, t, msg, c, rid);
    if owned {
      DrawnOutside(s, c, rid);
    }
    assert LinkOk(s.eth, s.conns[c], c, s.stage, s.calls);
    SendSubs(s.eth, owned, s.conns[c], c, s.stage, s.calls, s'.stage, s'.calls, rid, Caller(t), Ask(msg));
    AssembleNotices(s, s', owned, c);
  }

  lemma CommitAddNotices(s: S, owned: bool)
    requires NoticesOk(s, owned) && s.stage.AddGot? && IsConn(s, s.stage.c)
    ensures NoticesOk(CommitAdd(s), owned)
  {
    assert SubsOk(s.eth, owned, s.conns[s.stage.c], s.stage.c, s.stage, s.calls);
  }

  lemma CommitTearNotices(s: S, owned: bool)
    requires NoticesOk(s, owned) && s.stage.TearGot? && IsConn(s, s.stage.c)
    ensures NoticesOk(CommitTear(s), owned)
  {
  }

  lemma HandNotices(s: S, owned: bool, c: int)
    requires NoticesOk(s, owned) && CanHandOver(s, c)
    ensures NoticesOk(Hand(s, c), owned)
  {
    var s' := Hand(s, c);
    assert SubsOk(s.eth, owned, s.conns[c], c, s.stage, s.calls);
    assert SubsOk(s.eth, owned, s'.conns[c], c, s'.stage, s'.calls);
    AssembleNotices(s, s', owned, c);
  }

  lemma UnreadPassesNothing(s: S, c: int, x: Id, call: Call, body: Msg, sid: Id)
    requires IsConn(s, c) && x !in s.conns[c].resp
    ensures NothingPasses(s, Receive(s, c, x, Some(call), body, sid))
  {
  }

  lemma ReplyNotices(s: S, owned: bool, c: int, x: Id, call: Call, body: Msg, sid: Id, obeyed: bool)
    requires WireOk(s) && NoticesOk(s, owned) && EnabledNet(s, Reply(c, x, call, body, sid, obeyed))
    requires Distinct(s, Net(Reply(c, x, call, body, sid, obeyed)))
    ensures NoticesOk(ApplyNet(s, Reply(c, x, call, body, sid, obeyed)), owned)
  {
    assert LinkOk(s.eth, s.conns[c], c, s.stage, s.calls);
    var a := Answered(s, c, x, call, sid, obeyed);
    if x in s.conns[c].resp {
      AnswerHeld(s.eth, owned, s.conns[c], c, s.stage, s.calls, x, call, body, sid, obeyed);
      AssembleNotices(s, PickUp(a, c, x, Some(call), body, sid), owned, c);
    } else {
      AnswerDropped(s.eth, owned, s.conns[c], c, s.stage, s.calls, x, call, sid, obeyed);
      AssembleNotices(s, a, owned, c);
      UnreadPassesNothing(a, c, x, call, body, sid);
      StillOk(a, Receive(a, c, x, Some(call), body, sid), owned);
    }
  }

  lemma ResentSubs(owned: bool, conn: Conn, c: int, stage: Stage, calls: map<Tid, Flight>,
                   x: Id, p: Param, todo: seq<(Id, Param)>)
    requires SubsOk(false, owned, conn, c, stage, calls) && conn.mode.Resub?
    requires stage.AddGot? && stage.c == c ==> stage.sid != x
    ensures SubsOk(false, owned, conn.Send(x, Reader, Sub(p)).(mode := Resent(todo)), c, stage, calls)
  {
  }

  lemma ResubNotices(s: S, owned: bool, c: int)
    requires Reg(s) && NoticesOk(s, owned) && !s.eth && EnabledNet(s, ResubSend(c))
    ensures NoticesOk(SendResub(s, c), owned)
  {
    var e := s.conns[c].mode.todo[0];
    assert Maps(s)[c] == s.conns[c].maps && e.0 in Maps(s)[c].byId;
    if s.stage.AddGot? {
      UnknownEverywhere(s, s.stage.sid);
    }
    ResentSubs(owned, s.conns[c], c, s.stage, s.calls, e.0, e.1, s.conns[c].mode.todo);
    AssembleNotices(s, SendResub(s, c), owned, c);
  }

  /** A failed re-submission loses what the node owed. */
  lemma ModeNotices(s: S, owned: bool, step: NetStep)
    requires WireOk(s) && NoticesOk(s, owned) && EnabledNet(s, step)
    requires step.Drop? || step.Reconnect? || (IsResub(step) && !step.ResubSend?)
    ensures NoticesOk(ApplyNet(s, step), owned)
  {
    assert LinkOk(s.eth, s.conns[step.c], step.c, s.stage, s.calls);
    assert SubsOk(s.eth, owned, s.conns[step.c], step.c, s.stage, s.calls);
    AssembleNotices(s, ApplyNet(s, step), owned, step.c);
  }

  lemma AddStepNotices(s: S, owned: bool, step: AddStep)
    requires WireOk(s) && NoticesOk(s, owned) && EnabledAdd(s, step) && (!s.eth ==> Reg(s) && Fresh(s, Add(step)))
    ensures NoticesOk(ApplyAdd(s, step), owned)
  {
    if step.AddSend? {
      SendAddNotices(s, owned, step.c, step.rid);
    } else if step.AddCommit? {
      CommitAddNotices(s, owned);
    } else {
      AddPassesNothing(s, step);
      StillOk(s, ApplyAdd(s, step), owned);
    }
  }

  lemma RemStepNotices(s: S, owned: bool, step: RemStep)
    requires NoticesOk(s, owned) && EnabledRem(s, step)
    ensures NoticesOk(ApplyRem(s, step), owned)
  {
    StillOk(s, ApplyRem(s, step), owned);
  }

  lemma TearStepNotices(s: S, owned: bool, step: TearStep)
    requires WireOk(s) && NoticesOk(s, owned) && EnabledTear(s, step) && (!s.eth ==> Reg(s)) && (owned ==> OwnS(s))
    ensures NoticesOk(ApplyTear(s, step), owned)
  {
    if step.TearSend? {
      SendTearNotices(s, owned, step.rid);
    } else if step.TearCommit? {
      CommitTearNotices(s, owned);
    } else {
      TearPassesNothing(s, step);
      StillOk(s, ApplyTear(s, step), owned);
    }
  }

  lemma NetStepNotices(s: S, owned: bool, step: NetStep)
    requires WireOk(s) && NoticesOk(s, owned) && EnabledNet(s, step) && (!s.eth ==> Reg(s)) && (owned ==> OwnS(s))
    requires Distinct(s, Net(step))
    ensures NoticesOk(ApplyNet(s, step), owned)
  {
    match step
    case CallSend(t, msg, c, rid) => SendCallNotices(s, owned, t, msg, c, rid);
    case CallSendFail(_, _, _, _) => CallPassesNothing(s, step); StillOk(s, ApplyNet(s, step), owned);
    case CallTimeout(_) => CallPassesNothing(s, step); StillOk(s, ApplyNet(s, step), owned);
    case Reply(c, x, call, body, sid, obeyed) => ReplyNotices(s, owned, c, x, call, body, sid, obeyed);
    case Notify(c, x, body) => NotifyWire(s, c, x, body);
    case HandOver(c) => HandNotices(s, owned, c);
    case ResubSend(c) => ResubNotices(s, owned, c);
    case _ => ModeNotices(s, owned, step);
  }

  /** Every step keeps the invariant, failed re-submissions and resets included; the form for owned
      ids needs the ids to be owned. */
  lemma StepNotices(s: S, owned: bool, step: Step)
    requires WireOk(s) && NoticesOk(s, owned) && Enabled(s, step) && Distinct(s, step)
    requires (!s.eth ==> Reg(s) && Fresh(s, step)) && (owned ==> OwnS(s))
    ensures NoticesOk(Apply(s, step), owned)
  {
    match step
    case Add(a) => AddStepNotices(s, owned, a);
    case Rem(r) => RemStepNotices(s, owned, r);
    case Tear(t) => TearStepNotices(s, owned, t);
    case Net(n) => NetStepNotices(s, owned, n);
  }

  /** A run in which an Ethereum node assigns no id that is in use. */
  ghost predicate DistinctRun(s: S, steps: seq<Step>)
    decreases |steps|
  {
    steps == [] ||
    (DistinctRun(s, Front(steps)) &&
     (Enabled(Run(s, Front(steps)), Last(steps)) ==> Distinct(Run(s, Front(steps)), Last(steps))))
  }

  lemma {:induction false} RunNotices(eth: bool, n: nat, steps: seq<Step>, owned: bool)
    requires QuietRun(Init(eth, n), steps) && DistinctRun(Init(eth, n), steps)
    requires !eth ==> FreshRun(Init(eth, n), steps) && (owned ==> SoundRun(Init(eth, n), steps))
    ensures NoticesOk(Run(Init(eth, n), steps), owned)
    decreases |steps|
  {
    if steps != [] {
      RunNotices(eth, n, Front(steps), owned);
      RunKind(Init(eth, n), Front(steps));
      if !eth {
        InitReg(eth, n);
        RunReg(Init(eth, n), Front(steps));
      }
      RunWire(eth, n, Front(steps));
      if owned {
        RunOwns(eth, n, Front(steps));
      }
      var s := Run(Init(eth, n), Front(steps));
      if Enabled(s, Last(steps)) {
        StepNotices(s, owned, Last(steps));
      }
    }
  }
}
