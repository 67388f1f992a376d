/** Where the broker's guarantees end: reconnects, and ids that are drawn while still in use. */
module Limits {
  import opened Messages
  import opened Subscriptions
  import opened Layers
  import opened Machine
  import opened Frames
  import opened Agreement
  import opened Ownership
  import opened Wire

  // ----- Cosmos reconnects

  ghost predicate NetOnly(steps: seq<Step>) {
    forall i :: 0 <= i < |steps| ==> steps[i].Net?
  }

  /** However often Cosmos connections drop, reconnect and re-submit, in success or failure, and
      whatever requests and replies pass meanwhile, no layer of maps changes. */
  lemma {:induction false} ReconnectsKeepTheMaps(s: S, steps: seq<Step>)
    requires !s.eth && NetOnly(steps)
    ensures Maps(Run(s, steps)) == Maps(s)
    ensures Run(s, steps).sm == s.sm && Run(s, steps).pool == s.pool && !Run(s, steps).eth
    decreases |steps|
  {
    if steps != [] {
      ReconnectsKeepTheMaps(s, Front(steps));
      var r := Run(s, Front(steps));
      if Enabled(r, Last(steps)) {
        NetKeepsMaps(r, Last(steps).net);
      }
    }
  }

  lemma NetKeepsMaps(s: S, step: NetStep)
    requires !s.eth && EnabledNet(s, step)
    ensures Maps(ApplyNet(s, step)) == Maps(s)
    ensures ApplyNet(s, step).sm == s.sm && ApplyNet(s, step).pool == s.pool && !ApplyNet(s, step).eth
  {
    NetChanges(s, step);
  }

  ghost predicate NeverFails(steps: seq<Step>, c: int) {
    forall i :: 0 <= i < |steps| ==> steps[i] != Net(ResubFail(c))
  }

  /** The reader that re-submits is the one that would read the answer: once it has sent a
      re-submission it reads nothing at all until that re-submission fails. */
  lemma {:induction false} ResubmissionCannotSucceed(s: S, steps: seq<Step>, c: int)
    requires !s.eth && IsConn(s, c) && s.conns[c].mode.Resent? && NeverFails(steps, c)
    ensures !Run(s, steps).eth && IsConn(Run(s, steps), c) && Run(s, steps).conns[c].mode == s.conns[c].mode
    ensures forall x, call, body, sid, obeyed :: !Enabled(Run(s, steps), Net(Reply(c, x, call, body, sid, obeyed)))
    ensures forall x, body :: !Enabled(Run(s, steps), Net(Notify(c, x, body)))
    decreases |steps|
  {
    if steps != [] {
      ResubmissionCannotSucceed(s, Front(steps), c);
      var r := Run(s, Front(steps));
      assert Last(steps) == steps[|steps| - 1];
      if Enabled(r, Last(steps)) {
        StillResent(r, Last(steps), c);
      }
    }
  }

  lemma StillResent(s: S, step: Step, c: int)
    requires !s.eth && IsConn(s, c) && s.conns[c].mode.Resent? && Enabled(s, step) && step != Net(ResubFail(c))
    ensures !Apply(s, step).eth && IsConn(Apply(s, step), c) && Apply(s, step).conns[c].mode == s.conns[c].mode
  {
    match step
    case Add(a) => AddKeepsModes(s, a);
    case Rem(r) => assert ApplyRem(s, r).conns == s.conns && ApplyRem(s, r).eth == s.eth;
    case Tear(t) => TearKeepsModes(s, t);
    case Net(n) => NetStillResent(s, n, c);
  }

  ghost predicate SameModes(s: S, s': S) {
    s'.eth == s.eth && |s'.conns| == |s.conns| && forall c :: IsConn(s, c) ==> s'.conns[c].mode == s.conns[c].mode
  }

  lemma AddKeepsModes(s: S, step: AddStep)
    requires EnabledAdd(s, step)
    ensures SameModes(s, ApplyAdd(s, step))
  {
  }

  lemma TearKeepsModes(s: S, step: TearStep)
    requires EnabledTear(s, step)
    ensures SameModes(s, ApplyTear(s, step))
  {
  }

  lemma ReceiveElsewhere(s: S, d: int, x: Id, answered: Option<Call>, body: Msg, sid: Id, c: int)
    requires IsConn(s, d) && IsConn(s, c) && d != c
    ensures
      var s' := Receive(s, d, x, answered, body, sid);
      s'.eth == s.eth && |s'.conns| == |s.conns| && s'.conns[c] == s.conns[c]
  {
  }

  lemma NetStillResent(s: S, step: NetStep, c: int)
    requires !s.eth && IsConn(s, c) && s.conns[c].mode.Resent? && EnabledNet(s, step) && step != ResubFail(c)
    ensures !ApplyNet(s, step).eth && IsConn(ApplyNet(s, step), c) && ApplyNet(s, step).conns[c].mode == s.conns[c].mode
  {
    match step
    case Reply(d, x, call, body, sid, obeyed) =>
      ReceiveElsewhere(Answered(s, d, x, call, sid, obeyed), d, x, Some(call), body, sid, c);
    case Notify(d, x, body) => ReceiveElsewhere(s, d, x, None, body, x, c);
    case _ =>
  }

  /** A failed re-submission releases the id it was made under.  Ownership survives exactly when that
      id names no subscription of any connection any more and no request in flight. */
  lemma FailedResubmissionKeepsOwnershipIff(s: S, c: int)
    requires OwnS(s) && Enabled(s, Net(ResubFail(c)))
    ensures
      var x := s.conns[c].mode.todo[0].0;
      OwnS(Apply(s, Net(ResubFail(c)))) <==>
      (forall d :: IsConn(s, d) ==> x !in s.conns[d].maps.byId)
      && !InFlight(s.calls, x) && HolderRid(s.stage) != Some(x)
  {
    var s' := Apply(s, Net(ResubFail(c)));
    var x := s.conns[c].mode.todo[0].0;
    SameMaps(s, s');
    assert s'.stage == s.stage && s'.calls == s.calls && s'.gen == s.gen - {x};
    assert forall d :: IsConn(s, d) ==> Maps(s)[d] == s.conns[d].maps;
    if x in s.gen {
      assert HolderRid(s'.stage) == Some(x) || InFlight(s'.calls, x) || (!s'.eth && Held(Maps(s'), x));
      assert x !in s'.gen;
    } else {
      assert s'.gen == s.gen;
      assert forall d :: IsConn(s, d) && x in s.conns[d].maps.byId ==> Held(Maps(s), x);
    }
  }

  /** While the subscription that is re-submitted is listed a failure always breaks ownership. */
  lemma FailureWhileListedBreaksOwnership(s: S, c: int)
    requires OwnS(s) && Enabled(s, Net(ResubFail(c))) && s.conns[c].maps.Valid()
    requires StillListed(s.conns[c].maps, s.conns[c].mode.todo[0])
    ensures !OwnS(Apply(s, Net(ResubFail(c))))
  {
    FailedResubmissionKeepsOwnershipIff(s, c);
  }

  // ----- an uninterrupted subscribe

  /** The steps of addSubscription when nobody interferes and the node answers; the request has the id
      `rid` and the subscription the id `x`. */
  function SubscribeSteps(client: Client, q: Param, cid: MsgId, d: int, rid: Id, x: Id, body: Msg, obeyed: bool)
    : seq<Step>
  {
    SendSteps(client, q, cid, d, rid, x, body, obeyed)
    + [Add(AddCommit)] + [Add(AddPool)] + [Add(AddRegister)] + [Add(AddDone)]
  }

  function SendSteps(client: Client, q: Param, cid: MsgId, d: int, rid: Id, x: Id, body: Msg, obeyed: bool): seq<Step> {
    [Add(AddEnter(client, q, cid))] + [Add(AddSend(d, rid))] + [Net(Reply(d, rid, Sub(q), body, x, obeyed))]
    + [Net(HandOver(d))]
  }

  /** A Cosmos subscription has the id of its request. */
  ghost predicate CanStart(s: S, q: Param, d: int, rid: Id, x: Id) {
    && s.stage.Free? && Reads(s, d) && rid !in s.gen && (!s.eth ==> x == rid)
    && q !in s.sm.paramToId && q !in s.pool.id && q !in s.conns[d].maps.byParam
  }

  predicate Reads(s: S, d: int) {
    IsConn(s, d) && s.conns[d].mode.Reading?
  }

  lemma SendRun(s: S, client: Client, q: Param, cid: MsgId, d: int, rid: Id, x: Id, body: Msg, obeyed: bool)
    requires CanStart(s, q, d, rid, x)
    ensures
      var s' := Run(s, SendSteps(client, q, cid, d, rid, x, body, obeyed));
      && s'.stage == AddGot(client, q, cid, d, rid, x)
      && s'.sm == s.sm && s'.pool == s.pool && s'.log == s.log && s'.gen == s.gen + {rid} && s'.rems == s.rems
      && SameModes(s, s') && Maps(s') == Maps(s)
      && s'.conns[d].subs == if obeyed then s.conns[d].subs[x := q] else s.conns[d].subs
  {
    var s1 := EnterAdd(s, client, q, cid);
    Chain(s, [], s, Add(AddEnter(client, q, cid)), s1);
    var s2 := SendAdd(s1, d, rid);
    Chain(s, [Add(AddEnter(client, q, cid))], s1, Add(AddSend(d, rid)), s2);
    AnswerRun(s2, s, [Add(AddEnter(client, q, cid))] + [Add(AddSend(d, rid))], d, rid, Sub(q), body, x, obeyed);
    SameMaps(s, s2);
  }

  /** The node answers a request at once and the reader hands the answer over. */
  lemma AnswerRun(s: S, s0: S, steps: seq<Step>, d: int, rid: Id, call: Call, body: Msg, x: Id, obeyed: bool)
    requires Run(s0, steps) == s && Reads(s, d) && (rid, call) in s.conns[d].owed
    requires rid in s.conns[d].resp && s.conns[d].resp[rid].w.Holder?
    requires Asks(s.stage, s.calls, d, s.conns[d].resp[rid], rid).Some?
    ensures
      var s' := Run(s0, steps + [Net(Reply(d, rid, call, body, x, obeyed))] + [Net(HandOver(d))]);
      && Advanced(s.eth, s.stage, s'.stage, d, rid, x)
      && s'.sm == s.sm && s'.pool == s.pool && s'.log == s.log && s'.rems == s.rems && s'.gen == s.gen
      && SameModes(s, s') && Maps(s') == Maps(s)
      && s'.conns[d].subs == s.conns[d].Answer(s.eth, rid, call, x, obeyed).subs
  {
    var reply := Net(Reply(d, rid, call, body, x, obeyed));
    var s1 := PickUp(Answered(s, d, rid, call, x, obeyed), d, rid, Some(call), body, x);
    ReplyIsPickedUp(s, d, rid, call, body, x, obeyed);
    Chain(s0, steps, s, reply, s1);
    HandEffect(s1, d);
    Chain(s0, steps + [reply], s1, Net(HandOver(d)), Hand(s1, d));
    SameMaps(s, Hand(s1, d));
  }

  lemma ReplyIsPickedUp(s: S, d: int, rid: Id, call: Call, body: Msg, x: Id, obeyed: bool)
    requires Reads(s, d) && (rid, call) in s.conns[d].owed && rid in s.conns[d].resp
    ensures
      ApplyNet(s, Reply(d, rid, call, body, x, obeyed)) ==
      PickUp(Answered(s, d, rid, call, x, obeyed), d, rid, Some(call), body, x)
  {
  }

  lemma HandEffect(s: S, d: int)
    requires CanHandOver(s, d) && s.conns[d].mode.ch.w.Holder?
    ensures
      var s' := Hand(s, d);
      && Advanced(s.eth, s.stage, s'.stage, d, s.conns[d].mode.x, s.conns[d].mode.sid)
      && s'.eth == s.eth && s'.sm == s.sm && s'.pool == s.pool && s'.log == s.log
      && s'.rems == s.rems && s'.gen == s.gen
      && s'.conns == s.conns[d := s.conns[d].Settle(s.conns[d].mode.x).(mode := s.conns[d].mode.Rested())]
  {
  }

  lemma FinishRun(s: S, s0: S, steps: seq<Step>)
    requires Run(s0, steps) == s && s.stage.AddGot? && IsConn(s, s.stage.c)
    ensures
      var g := s.stage;
      var s' := Run(s0, steps + [Add(AddCommit)] + [Add(AddPool)] + [Add(AddRegister)] + [Add(AddDone)]);
      && s'.stage == Free
      && s'.sm == s.sm.Add(g.param, g.sid).Join(g.sid, g.client, g.cid)
      && s'.pool == s.pool.Add(g.param, g.sid, g.c)
      && s'.log == s.log + [Joined(g.client, g.param, g.cid, g.sid)]
      && s'.gen == (if s.eth then s.gen - {g.rid} else s.gen) && s'.rems == s.rems
      && Maps(s') == Maps(s)[g.c := Maps(s)[g.c].Register(g.param, g.sid)]
      && SameModes(s, s') && s'.conns[g.c].subs == s.conns[g.c].subs
  {
    var s1 := CommitAdd(s);
    Chain(s0, steps, s, Add(AddCommit), s1);
    NewMaps(s, s1, s.stage.c, s.conns[s.stage.c].maps.Register(s.stage.param, s.stage.sid));
    var s2 := PoolAdd(s1);
    Chain(s0, steps + [Add(AddCommit)], s1, Add(AddPool), s2);
    var s3 := RegisterAdd(s2);
    Chain(s0, steps + [Add(AddCommit)] + [Add(AddPool)], s2, Add(AddRegister), s3);
    var s4 := FinishAdd(s3);
    Chain(s0, steps + [Add(AddCommit)] + [Add(AddPool)] + [Add(AddRegister)], s3, Add(AddDone), s4);
    SameMaps(s1, s4);
  }

  /** Run without interference, addSubscription adds one subscription to every layer and one client, and
      over Cosmos its id to the generator.  The node has the subscription only if it obeyed. */
  lemma SubscribeRun(s: S, client: Client, q: Param, cid: MsgId, d: int, rid: Id, x: Id, body: Msg, obeyed: bool)
    requires CanStart(s, q, d, rid, x)
    ensures
      var s' := Run(s, SubscribeSteps(client, q, cid, d, rid, x, body, obeyed));
      && s'.stage == Free
      && s'.sm == s.sm.Add(q, x).Join(x, client, cid)
      && s'.pool == s.pool.Add(q, x, d)
      && s'.log == s.log + [Joined(client, q, cid, x)]
      && s'.gen == (if s.eth then s.gen else s.gen + {x}) && s'.rems == s.rems
      && Maps(s') == Maps(s)[d := Maps(s)[d].Register(q, x)]
      && SameModes(s, s')
      && s'.conns[d].subs == if obeyed then s.conns[d].subs[x := q] else s.conns[d].subs
  {
    SendRun(s, client, q, cid, d, rid, x, body, obeyed);
    var steps := SendSteps(client, q, cid, d, rid, x, body, obeyed);
    FinishRun(Run(s, steps), s, steps);
    assert (s.gen + {rid}) - {rid} == s.gen;
  }

  /** A refusal counts as success: whether the node serves the query is decided by its answer, which
      the Cosmos manager does not read, while the client follows the query, and all layers hold it,
      either way. */
  lemma ServedIffObeyed(s: S, client: Client, q: Param, cid: MsgId, d: int, x: Id, body: Msg, obeyed: bool)
    requires !s.eth && CanStart(s, q, d, x, x) && x !in s.conns[d].subs
    ensures
      var s' := Run(s, SubscribeSteps(client, q, cid, d, x, x, body, obeyed));
      && IsConn(s', d)
      && (x in s'.conns[d].subs <==> obeyed)
      && s'.sm.Lookup(client, q) == Some(cid) == Latest(s'.log, client, q)
      && x in s'.conns[d].maps.byId && s'.conns[d].maps.byId[x] == q
  {
    SubscribeRun(s, client, q, cid, d, x, x, body, obeyed);
    var s' := Run(s, SubscribeSteps(client, q, cid, d, x, x, body, obeyed));
    assert Maps(s')[d] == s'.conns[d].maps && Maps(s)[d] == s.conns[d].maps;
    JustJoined(s.sm, s.log, client, q, cid, x);
  }

  lemma JustJoined(sm: Table, log: seq<Event>, client: Client, q: Param, cid: MsgId, x: Id)
    ensures sm.Add(q, x).Join(x, client, cid).Lookup(client, q) == Some(cid)
    ensures Latest(log + [Joined(client, q, cid, x)], client, q) == Some(cid)
  {
    assert Last(log + [Joined(client, q, cid, x)]) == Joined(client, q, cid, x);
  }

  /** An id that was released while its subscription lives can be drawn for another query; the table
      then binds two queries to one id. */
  lemma SharedIdBreaksTheTable(s: S, x: Id, q: Param, d: int, client: Client, cid: MsgId, body: Msg)
    requires s.sm.Valid() && !s.eth && CanStart(s, q, d, x, x) && x in s.sm.idToParam
    ensures !Run(s, SubscribeSteps(client, q, cid, d, x, x, body, true)).sm.Valid()
  {
    SubscribeRun(s, client, q, cid, d, x, x, body, true);
    var u := s.sm.Add(q, x).Join(x, client, cid);
    assert u.paramToId[s.sm.idToParam[x]] == x && u.idToParam[x] == q;
  }

  function DropSteps(x: Id, q: Param): seq<Step> {
    [Net(Drop(0))] + [Net(Reconnect(0, [(x, q)]))] + [Net(ResubSend(0))] + [Net(ResubFail(0))]
  }

  lemma DropRun(s: S, x: Id, q: Param)
    requires !s.eth && |s.conns| == 2 && s.conns[0].mode.Reading? && s.conns[0].maps == NoSubs.Register(q, x)
    ensures
      var s' := Run(s, DropSteps(x, q));
      && s'.sm == s.sm && s'.pool == s.pool && s'.stage == s.stage && !s'.eth
      && s'.gen == s.gen - {x} && |s'.conns| == 2 && s'.conns[1] == s.conns[1]
  {
    var steps := [Net(Drop(0))] + [Net(Reconnect(0, [(x, q)]))];
    var s1 := Lost(s, 0);
    Chain(s, [], s, Net(Drop(0)), s1);
    var s2 := Reconnected(s1, 0, [(x, q)]);
    Chain(s, [Net(Drop(0))], s1, Net(Reconnect(0, [(x, q)])), s2);
    ResubRun(s2, s, steps, x, q);
  }

  lemma ResubRun(s: S, s0: S, steps: seq<Step>, x: Id, q: Param)
    requires Run(s0, steps) == s && !s.eth && |s.conns| == 2
    requires s.conns[0].mode == Resub([(x, q)]) && s.conns[0].maps == NoSubs.Register(q, x)
    ensures
      var s' := Run(s0, steps + [Net(ResubSend(0))] + [Net(ResubFail(0))]);
      && s'.sm == s.sm && s'.pool == s.pool && s'.stage == s.stage && !s'.eth
      && s'.gen == s.gen - {x} && |s'.conns| == 2 && s'.conns[1] == s.conns[1]
  {
    var s3 := SendResub(s, 0);
    Chain(s0, steps, s, Net(ResubSend(0)), s3);
    var s4 := FailResub(s3, 0);
    Chain(s0, steps + [Net(ResubSend(0))], s3, Net(ResubFail(0)), s4);
  }

  /** Two connections, one drop: two clients end up sharing an id for two different queries. */
  lemma OneFailedResubmissionIsEnough(body: Msg)
    ensures
      var q := Name("tm.event='NewBlock'");
      var r := Name("tm.event='Tx'");
      var x := Name("7");
      var steps := SubscribeSteps(1, q, IntId(1), 0, x, x, body, true) + DropSteps(x, q) +
                   SubscribeSteps(2, r, IntId(2), 1, x, x, body, true);
      !Run(Init(false, 2), steps).sm.Valid()
  {
    var q := Name("tm.event='NewBlock'");
    var r := Name("tm.event='Tx'");
    var x := Name("7");
    var s := Init(false, 2);
    var first := SubscribeSteps(1, q, IntId(1), 0, x, x, body, true);
    assert q.text[10] != r.text[10];
    ReleasedAndTaken(q, x, r, body);
    RunConcat(s, first, DropSteps(x, q));
    RunConcat(s, first + DropSteps(x, q), SubscribeSteps(2, r, IntId(2), 1, x, x, body, true));
  }

  lemma ReleasedAndTaken(q: Param, x: Id, r: Param, body: Msg)
    requires q != r
    ensures
      var s1 := Run(Init(false, 2), SubscribeSteps(1, q, IntId(1), 0, x, x, body, true));
      !Run(Run(s1, DropSteps(x, q)), SubscribeSteps(2, r, IntId(2), 1, x, x, body, true)).sm.Valid()
  {
    var s := Init(false, 2);
    assert Maps(s) == [NoSubs, NoSubs];
    SubscribeRun(s, 1, q, IntId(1), 0, x, x, body, true);
    var s1 := Run(s, SubscribeSteps(1, q, IntId(1), 0, x, x, body, true));
    assert Maps(s1)[0] == NoSubs.Register(q, x) && Maps(s1)[1] == NoSubs;
    DropRun(s1, x, q);
    AddValidIff(EmptyTable, q, x);
    SharedIdBreaksTheTable(Run(s1, DropSteps(x, q)), x, r, 1, 2, IntId(2), body);
  }

  function LateSteps(t: Tid, msg: Msg, c: int, x: Id, body: Msg): seq<Step> {
    [Net(CallSend(t, msg, c, x))] + [Net(CallTimeout(t))] + [Net(Reply(c, x, Ask(msg), body, x, true))]
  }

  /** A registered id that was released can be drawn for an ordinary request; if that request times out
      its reply goes to the subscribers, whose message it is not. */
  lemma LateReplyIsBroadcast(s: S, t: Tid, msg: Msg, c: int, x: Id, body: Msg)
    requires !s.eth && Reads(s, c) && x in s.conns[c].maps.byId && x !in s.gen && t !in s.calls
    ensures Run(s, LateSteps(t, msg, c, x, body)).sent == Spread(s, x, body).sent
    ensures Quiet(s.conns[c], x) ==> QuietRun(s, LateSteps(t, msg, c, x, body))
  {
    var a, b, d := Net(CallSend(t, msg, c, x)), Net(CallTimeout(t)), Net(Reply(c, x, Ask(msg), body, x, true));
    var s1 := SendCall(s, t, msg, c, x);
    Chain(s, [], s, a, s1);
    var s2 := TimeOutCall(s1, t);
    Chain(s, [a], s1, b, s2);
    assert s2.sm == s.sm && s2.conns[c].maps == s.conns[c].maps;
    var s3 := Spread(Answered(s2, c, x, Ask(msg), x, true), x, body);
    Chain(s, [a] + [b], s2, d, s3);
    if Quiet(s.conns[c], x) {
      QuietSnoc(s, [], a);
      QuietSnoc(s, [a], b);
      QuietSnoc(s, [a] + [b], d);
    }
  }

  // ----- Ethereum reconnects

  /** An Ethereum connection comes back with empty maps; the layers still agree exactly when it held
      no subscription. */
  lemma EthReconnectAgreesIff(s: S, c: int, todo: seq<(Id, Param)>)
    requires Inv(s) && s.eth && s.stage.Free? && Enabled(s, Net(Reconnect(c, todo)))
    ensures
      var s' := Apply(s, Net(Reconnect(c, todo)));
      ConnsAgree(s'.pool, Maps(s'), s'.stage) <==> s.conns[c].maps == NoSubs
  {
    var s' := Apply(s, Net(Reconnect(c, todo)));
    NewMaps(s, s', c, NoSubs);
    var m := s.conns[c].maps;
    assert Maps(s)[c] == m && Maps(s')[c] == NoSubs;
    if x :| x in m.byId {
      assert ExpectedConn(s.pool, s.stage, c, x);
      assert x !in Maps(s')[c].byId;
    } else {
      assert m.byId == map[] && (forall p :: p !in m.byParam);
      assert m.byParam == map[];
      assert Maps(s') == Maps(s);
    }
  }

  // ----- ids drawn while in use

  /** What arrives under `rid` on connection `c`. */
  predicate ArrivesUnder(step: NetStep, c: int, rid: Id) {
    (step.Reply? || step.Notify?) && step.c == c && step.x == rid
  }

  /** If the reader then hands the message to somebody, it is that caller's answer. */
  ghost predicate HandedRightly(s: S, c: int) {
    CanHandOver(s, c) && Hand(s, c).returned != s.returned ==> Right(Last(Hand(s, c).returned))
  }

  /** An ordinary request under a drawn id can get nothing but its answer, whatever the node sends next
      under that id, exactly when the node owes no other answer under it and, over Cosmos, does not
      notify under it. */
  lemma DrawIsSafeIff(s: S, t: Tid, msg: Msg, c: int, rid: Id)
    requires Enabled(s, Net(CallSend(t, msg, c, rid))) && s.conns[c].mode.Reading?
    ensures
      var s1 := Apply(s, Net(CallSend(t, msg, c, rid)));
      (forall step: NetStep :: ArrivesUnder(step, c, rid) && Enabled(s1, Net(step)) ==>
         HandedRightly(Apply(s1, Net(step)), c))
      <==> (forall call :: (rid, call) in s.conns[c].owed ==> call == Ask(msg)) && (s.eth || rid !in s.conns[c].subs)
  {
    var s1 := Apply(s, Net(CallSend(t, msg, c, rid)));
    forall step: NetStep | ArrivesUnder(step, c, rid) && Enabled(s1, Net(step))
      ensures HandedRightly(Apply(s1, Net(step)), c) <==> (if step.Reply? then step.call == Ask(msg) else s.eth)
    {
      HandedToCaller(s1, t, c, rid, step);
    }
    forall call | (rid, call) in s.conns[c].owed
      ensures Enabled(s1, Net(Reply(c, rid, call, msg, rid, true)))
    {
    }
    if rid in s.conns[c].subs {
      assert Enabled(s1, Net(Notify(c, rid, msg)));
    }
  }

  lemma HandedToCaller(s: S, t: Tid, c: int, rid: Id, step: NetStep)
    requires ArrivesUnder(step, c, rid) && Enabled(s, Net(step))
    requires t in s.calls && s.calls[t].c == c && s.calls[t].rid == rid
    requires rid in s.conns[c].resp && s.conns[c].resp[rid] == Chan(Caller(t), s.calls[t].k)
    ensures
      HandedRightly(Apply(s, Net(step)), c) <==> (if step.Reply? then step.call == Ask(s.calls[t].msg) else s.eth)
  {
  }

  /** The reply to a subscribe that timed out comes late and is dropped, but the node has subscribed:
      nothing is owed under the id, and still the next request under it gets a notification for reply. */
  lemma LateSubscribeMisleads(client: Client, q: Param, cid: MsgId, x: Id, body: Msg, t: Tid, msg: Msg)
    ensures
      var steps := [Add(AddEnter(client, q, cid))] + [Add(AddSend(0, x))] + [Add(AddTimeout)]
                   + [Net(Reply(0, x, Sub(q), body, x, true))] + [Net(CallSend(t, msg, 0, x))]
                   + [Net(Notify(0, x, body))] + [Net(HandOver(0))];
      Run(Init(false, 1), steps).returned == [Returned(msg, None, body.CloneWithID(msg.id))]
  {
    var s := Init(false, 1);
    var a, b, d := [Add(AddEnter(client, q, cid))], [Add(AddSend(0, x))], [Add(AddTimeout)];
    var s1 := EnterAdd(s, client, q, cid);
    Chain(s, [], s, a[0], s1);
    var s2 := SendAdd(s1, 0, x);
    Chain(s, a, s1, b[0], s2);
    var s3 := TimeOutAdd(s2);
    Chain(s, a + b, s2, d[0], s3);
    var s4 := Answered(s3, 0, x, Sub(q), x, true);
    Chain(s, a + b + d, s3, Net(Reply(0, x, Sub(q), body, x, true)), s4);
    MisledRun(s4, s, a + b + d + [Net(Reply(0, x, Sub(q), body, x, true))], x, body, t, msg);
  }

  lemma MisledRun(s: S, s0: S, steps: seq<Step>, x: Id, body: Msg, t: Tid, msg: Msg)
    requires Run(s0, steps) == s && !s.eth && IsConn(s, 0) && s.conns[0].mode.Reading? && x in s.conns[0].subs
    requires x !in s.gen && s.calls == map[] && s.returned == []
    ensures
      Run(s0, steps + [Net(CallSend(t, msg, 0, x))] + [Net(Notify(0, x, body))] + [Net(HandOver(0))]).returned ==
      [Returned(msg, None, body.CloneWithID(msg.id))]
  {
    var s1 := SendCall(s, t, msg, 0, x);
    Chain(s0, steps, s, Net(CallSend(t, msg, 0, x)), s1);
    var s2 := PickUp(s1, 0, x, None, body, x);
    Chain(s0, steps + [Net(CallSend(t, msg, 0, x))], s1, Net(Notify(0, x, body)), s2);
    Chain(s0, steps + [Net(CallSend(t, msg, 0, x))] + [Net(Notify(0, x, body))], s2, Net(HandOver(0)), Hand(s2, 0));
  }
}
