/** What one client subscribes and unsubscribes again, step by step and without interference. */
module RoundTrip {
  import opened Messages
  import opened Subscriptions
  import opened Layers
  import opened Machine
  import opened Frames
  import opened Agreement
  import opened Limits

  /** The steps of removeSubscription when nobody interferes and the node answers. */
  function UnsubscribeSteps(t: Tid, client: Client, q: Param, x: Id, d: int, rid: Id, body: Msg, obeyed: bool)
    : seq<Step>
  {
    LeaveSteps(t, client, q) + AskSteps(q, x, d, rid, body, obeyed)
    + [Tear(TearCommit)] + [Tear(TearPool)] + [Tear(TearDone)]
  }

  function LeaveSteps(t: Tid, client: Client, q: Param): seq<Step> {
    [Rem(RemFind(t, client, q))] + [Rem(RemCheck(t))] + [Rem(RemDrop(t))] + [Rem(RemEnter(t))]
  }

  function AskSteps(q: Param, x: Id, d: int, rid: Id, body: Msg, obeyed: bool): seq<Step> {
    [Tear(TearSend(rid))] + [Net(Reply(d, rid, Unsub(q, x), body, x, obeyed))] + [Net(HandOver(d))]
  }

  /** `client` is the only one to follow `q`, which is subscription `x` of connection `d`. */
  ghost predicate OnlyFollower(s: S, client: Client, q: Param, x: Id, d: int) {
    && s.stage.Free? && !IsEthSubscriptionID(q)
    && q in s.sm.paramToId && s.sm.paramToId[q] == x && x in s.sm.idToParam && s.sm.idToParam[x] == q
    && s.sm.Has(x, client) && s.sm.Leave(x, client).Empty(x)
    && x in s.pool.conn && s.pool.conn[x] == d
    && Reads(s, d) && s.conns[d].maps.ParamOf(x) == q
  }

  /** The id is resolved and the client is seen to follow it. */
  lemma FindRun(s: S, s0: S, steps: seq<Step>, t: Tid, client: Client, p: Param, x: Id)
    requires Run(s0, steps) == s && t !in s.rems && s.sm.Has(x, client) && Resolve(s.sm, p) == Some(x)
    ensures
      Run(s0, steps + [Rem(RemFind(t, client, p))] + [Rem(RemCheck(t))]) ==
      s.(rems := s.rems[t := Checked(client, TargetOf(p), x)])
  {
    var s1 := s.(rems := s.rems[t := Found(client, TargetOf(p), x)]);
    Chain(s0, steps, s, Rem(RemFind(t, client, p)), s1);
    var s2 := s.(rems := s.rems[t := Checked(client, TargetOf(p), x)]);
    assert s1.rems[t := Checked(client, TargetOf(p), x)] == s2.rems;
    Chain(s0, steps + [Rem(RemFind(t, client, p))], s1, Rem(RemCheck(t)), s2);
  }

  /** Run without interference, removeSubscription takes the client out of the subscription that it named, by
      query or by id, and goes on to the upstream unsubscribe exactly when nobody is left. */
  lemma LeaveRun(s: S, t: Tid, client: Client, p: Param, x: Id)
    requires s.stage.Free? && t !in s.rems && Resolve(s.sm, p) == Some(x) && s.sm.Has(x, client)
    ensures
      Run(s, LeaveSteps(t, client, p)) ==
      s.(sm := s.sm.Leave(x, client), log := s.log + [Left(client, TargetOf(p))],
         stage := if s.sm.Leave(x, client).Empty(x) then TearCall(x, Finish) else Free)
  {
    var found := [] + [Rem(RemFind(t, client, p))] + [Rem(RemCheck(t))];
    FindRun(s, s, [], t, client, p, x);
    DropAndEnter(s, Run(s, found), found, t, client, p, x);
    assert found + [Rem(RemDrop(t))] + [Rem(RemEnter(t))] == LeaveSteps(t, client, p);
  }

  lemma DropAndEnter(s: S, s2: S, steps: seq<Step>, t: Tid, client: Client, p: Param, x: Id)
    requires Run(s, steps) == s2 && t !in s.rems && s2 == s.(rems := s.rems[t := Checked(client, TargetOf(p), x)])
    requires s.stage.Free? && s.sm.Has(x, client)
    ensures
      Run(s, steps + [Rem(RemDrop(t))] + [Rem(RemEnter(t))]) ==
      s.(sm := s.sm.Leave(x, client), log := s.log + [Left(client, TargetOf(p))],
         stage := if s.sm.Leave(x, client).Empty(x) then TearCall(x, Finish) else Free)
  {
    var s3 := DropRem(s2, t);
    Chain(s, steps, s2, Rem(RemDrop(t)), s3);
    var s4 := EnterRem(s3, t);
    Chain(s, steps + [Rem(RemDrop(t))], s3, Rem(RemEnter(t)), s4);
    assert s4.rems == s.rems;
  }

  /** A client that does not follow what it names changes nothing. */
  lemma LeaveNothingRun(s: S, t: Tid, client: Client, p: Param)
    requires t !in s.rems && (Resolve(s.sm, p).Some? ==> !s.sm.Has(Resolve(s.sm, p).value, client))
    ensures Run(s, LeaveSteps(t, client, p)) == s
  {
    var find, check := Rem(RemFind(t, client, p)), Rem(RemCheck(t));
    if Resolve(s.sm, p).Some? {
      var s1 := s.(rems := s.rems[t := Found(client, TargetOf(p), Resolve(s.sm, p).value)]);
      Chain(s, [], s, find, s1);
      assert s1.rems - {t} == s.rems;
      Chain(s, [find], s1, check, s);
    } else {
      SkipRun(s, [], s, find);
      SkipRun(s, [find], s, check);
    }
    SkipRun(s, [find] + [check], s, Rem(RemDrop(t)));
    SkipRun(s, [find] + [check] + [Rem(RemDrop(t))], s, Rem(RemEnter(t)));
  }

  lemma SkipRun(s0: S, steps: seq<Step>, s: S, step: Step)
    requires Run(s0, steps) == s && !Enabled(s, step)
    ensures Run(s0, steps + [step]) == s
  {
  }

  /** The steps of removeAllSubscriptions over `n` subscriptions that others follow as well. */
  function AllSteps(client: Client, ids: seq<Id>): seq<Step> {
    [Rem(AllEnter(client, ids))] + Visits(|ids|) + [Rem(AllExit)]
  }

  function Visits(n: nat): seq<Step> {
    if n == 0 then [] else [Rem(AllDrop)] + [Rem(AllTest)] + Visits(n - 1)
  }

  function LeaveEach(sm: Table, client: Client, ids: seq<Id>): Table
    decreases |ids|
  {
    if ids == [] then sm else LeaveEach(sm.Leave(ids[0], client), client, ids[1..])
  }

  function LeftEach(client: Client, ids: seq<Id>): seq<Event> {
    if ids == [] then [] else [Left(client, ById(ids[0]))] + LeftEach(client, ids[1..])
  }

  /** The client follows each, and so does somebody else. */
  ghost predicate Shared(sm: Table, client: Client, ids: seq<Id>) {
    && (forall i :: 0 <= i < |ids| ==> sm.Has(ids[i], client) && !sm.Leave(ids[i], client).Empty(ids[i]))
    && (forall i, j :: 0 <= i < j < |ids| ==> ids[i] != ids[j])
  }

  /** The loop has come to the end of `ids`. */
  function Swept(s: S, client: Client, ids: seq<Id>): S {
    s.(sm := LeaveEach(s.sm, client, ids), log := s.log + LeftEach(client, ids), stage := AllLoop(client, []))
  }

  /** It has come to the first of them. */
  function Visited(s: S, client: Client, ids: seq<Id>): S
    requires ids != []
  {
    s.(sm := s.sm.Leave(ids[0], client), log := s.log + [Left(client, ById(ids[0]))],
       stage := AllLoop(client, ids[1..]))
  }

  lemma VisitRun(s: S, client: Client, ids: seq<Id>)
    requires s.stage == AllLoop(client, ids) && ids != [] && Shared(s.sm, client, ids)
    ensures Run(s, [Rem(AllDrop)] + [Rem(AllTest)]) == Visited(s, client, ids)
    ensures Shared(Visited(s, client, ids).sm, client, ids[1..])
  {
    Chain(s, [], s, Rem(AllDrop), DropAll(s));
    Chain(s, [Rem(AllDrop)], DropAll(s), Rem(AllTest), TestAll(DropAll(s)));
    assert forall i :: 0 <= i < |ids[1..]| ==> ids[1..][i] == ids[i + 1];
  }

  lemma SweptMore(s: S, client: Client, ids: seq<Id>)
    requires ids != []
    ensures Swept(Visited(s, client, ids), client, ids[1..]) == Swept(s, client, ids)
  {
    assert s.log + [Left(client, ById(ids[0]))] + LeftEach(client, ids[1..]) == s.log + LeftEach(client, ids);
  }

  lemma {:induction false} VisitsRun(s: S, client: Client, ids: seq<Id>)
    requires s.stage == AllLoop(client, ids) && Shared(s.sm, client, ids)
    ensures Run(s, Visits(|ids|)) == Swept(s, client, ids)
    decreases |ids|
  {
    if ids == [] {
      assert s.log + [] == s.log;
    } else {
      VisitRun(s, client, ids);
      VisitsRun(Visited(s, client, ids), client, ids[1..]);
      SweptMore(s, client, ids);
      RunConcat(s, [Rem(AllDrop)] + [Rem(AllTest)], Visits(|ids| - 1));
    }
  }

  /** Run without interference, removeAllSubscriptions takes the client out of all that it follows; where
      others follow too nothing else changes. */
  lemma AllRun(s: S, client: Client, ids: seq<Id>)
    requires s.stage.Free? && s.sm.Lists(client, ids) && Shared(s.sm, client, ids)
    ensures
      Run(s, AllSteps(client, ids)) ==
      s.(sm := LeaveEach(s.sm, client, ids), log := s.log + LeftEach(client, ids))
    ensures forall x, cl :: Run(s, AllSteps(client, ids)).sm.Has(x, cl) <==> s.sm.Has(x, cl) && cl != client
  {
    var enter := Rem(AllEnter(client, ids));
    var s1 := s.(stage := AllLoop(client, ids));
    Chain(s, [], s, enter, s1);
    VisitsRun(s1, client, ids);
    RunConcat(s, [enter], Visits(|ids|));
    var s2 := Run(s, [enter] + Visits(|ids|));
    Chain(s, [enter] + Visits(|ids|), s2, Rem(AllExit), s2.(stage := Free));
    LeftEverything(s.sm, client, ids);
  }

  lemma {:induction false} LeftEverything(sm: Table, client: Client, ids: seq<Id>)
    ensures forall x, cl ::
              LeaveEach(sm, client, ids).Has(x, cl) <==> sm.Has(x, cl) && !(cl == client && x in ids)
    decreases |ids|
  {
    if ids != [] {
      LeftEverything(sm.Leave(ids[0], client), client, ids[1..]);
      assert forall x :: x in ids <==> x == ids[0] || x in ids[1..];
    }
  }

  lemma CallRun(s: S, s0: S, steps: seq<Step>, q: Param, x: Id, d: int, rid: Id, body: Msg, obeyed: bool)
    requires Run(s0, steps) == s && s.stage == TearCall(x, Finish) && x in s.pool.conn && s.pool.conn[x] == d
    requires Reads(s, d) && s.conns[d].maps.ParamOf(x) == q && rid !in s.gen
    ensures
      var s' := Run(s0, steps + AskSteps(q, x, d, rid, body, obeyed));
      && s'.stage == TearGot(x, q, d, rid, Finish)
      && s'.sm == s.sm && s'.pool == s.pool && s'.log == s.log && s'.rems == s.rems
      && s'.gen == s.gen + {rid} && Maps(s') == Maps(s) && SameModes(s, s')
      && s'.conns[d].subs == s.conns[d].Answer(s.eth, rid, Unsub(q, x), x, obeyed).subs
  {
    var s1 := SendTear(s, rid);
    Chain(s0, steps, s, Tear(TearSend(rid)), s1);
    AnswerRun(s1, s0, steps + [Tear(TearSend(rid))], d, rid, Unsub(q, x), body, x, obeyed);
    SameMaps(s, s1);
    assert steps + AskSteps(q, x, d, rid, body, obeyed) ==
           steps + [Tear(TearSend(rid))] + [Net(Reply(d, rid, Unsub(q, x), body, x, obeyed))] + [Net(HandOver(d))];
  }

  lemma EndRun(s: S, s0: S, steps: seq<Step>)
    requires Run(s0, steps) == s && s.stage.TearGot? && IsConn(s, s.stage.c) && s.stage.next == Finish
    requires s.conns[s.stage.c].maps.ParamOf(s.stage.sid) == s.stage.param
    ensures
      var g := s.stage;
      var s' := Run(s0, steps + [Tear(TearCommit)] + [Tear(TearPool)] + [Tear(TearDone)]);
      && s'.stage == Free
      && s'.sm == s.sm.Remove(g.sid) && s'.pool == s.pool.Remove(g.sid)
      && s'.log == s.log && s'.rems == s.rems && s'.gen == s.gen - (if s.eth then {g.rid} else {g.rid, g.sid})
      && Maps(s') == Maps(s)[g.c := Maps(s)[g.c].Forget(g.param, g.sid)] && SameModes(s, s')
      && s'.conns[g.c].subs == s.conns[g.c].subs
  {
    var s1 := CommitTear(s);
    Chain(s0, steps, s, Tear(TearCommit), s1);
    NewMaps(s, s1, s.stage.c, s.conns[s.stage.c].maps.Forget(s.stage.param, s.stage.sid));
    var s2 := PoolTear(s1);
    Chain(s0, steps + [Tear(TearCommit)], s1, Tear(TearPool), s2);
    var s3 := FinishTear(s2);
    Chain(s0, steps + [Tear(TearCommit)] + [Tear(TearPool)], s2, Tear(TearDone), s3);
    SameMaps(s1, s3);
  }

  /** The last follower leaves: client, table, pool and connection lose the subscription, and over
      Cosmos the generator its id.  The node stops serving it if it obeys. */
  lemma UnsubscribeRun(s: S, t: Tid, client: Client, q: Param, x: Id, d: int, rid: Id, body: Msg, obeyed: bool)
    requires OnlyFollower(s, client, q, x, d) && t !in s.rems && rid !in s.gen
    ensures
      var s' := Run(s, UnsubscribeSteps(t, client, q, x, d, rid, body, obeyed));
      && s'.stage == Free
      && s'.sm == s.sm.Leave(x, client).Remove(x) && s'.pool == s.pool.Remove(x)
      && s'.log == s.log + [Left(client, ByQuery(q))] && s'.rems == s.rems
      && s'.gen == (if s.eth then s.gen else s.gen - {x})
      && Maps(s') == Maps(s)[d := Maps(s)[d].Forget(q, x)] && SameModes(s, s')
      && s'.conns[d].subs == s.conns[d].Answer(s.eth, rid, Unsub(q, x), x, obeyed).subs
  {
    LeaveRun(s, t, client, q, x);
    var s1 := Run(s, LeaveSteps(t, client, q));
    SameMaps(s, s1);
    CallRun(s1, s, LeaveSteps(t, client, q), q, x, d, rid, body, obeyed);
    var steps := LeaveSteps(t, client, q) + AskSteps(q, x, d, rid, body, obeyed);
    var s2 := Run(s, steps);
    assert s2.conns[d].maps == Maps(s2)[d] && s1.conns[d].maps == Maps(s1)[d];
    EndRun(s2, s, steps);
    assert (s.gen + {rid}) - {rid, x} == s.gen - {x} && (s.gen + {rid}) - {rid} == s.gen;
  }

  /** A query and an id that no layer knows. */
  ghost predicate New(s: S, q: Param, d: int, rid: Id, x: Id) {
    && s.sm.Valid() && CanStart(s, q, d, rid, x) && NotHeld(s.sm, s.pool, Maps(s), x)
    && s.pool.conn.Keys == s.pool.param.Keys
  }

  /** A client subscribes under request `rid` and leaves under request `rid'`; the node obeys or refuses. */
  function ThereAndBack(t: Tid, client: Client, q: Param, cid: MsgId, d: int, x: Id,
                        rid: Id, body: Msg, obeyed: bool, rid': Id, body': Msg, obeyed': bool): seq<Step> {
    SubscribeSteps(client, q, cid, d, rid, x, body, obeyed) + UnsubscribeSteps(t, client, q, x, d, rid', body', obeyed')
  }

  /** Subscribing to a new query and unsubscribing again restores every layer and the generator. */
  lemma SubscribeThenUnsubscribe(s: S, t: Tid, client: Client, q: Param, cid: MsgId, d: int, x: Id,
                                 rid: Id, body: Msg, obeyed: bool, rid': Id, body': Msg, obeyed': bool)
    requires New(s, q, d, rid, x) && t !in s.rems && !IsEthSubscriptionID(q)
    requires rid' !in s.gen && (!s.eth ==> rid' != x)
    ensures
      var s' := Run(s, ThereAndBack(t, client, q, cid, d, x, rid, body, obeyed, rid', body', obeyed'));
      && s'.stage == Free
      && s'.sm == s.sm && s'.pool == s.pool && Maps(s') == Maps(s) && s'.gen == s.gen && s'.rems == s.rems
      && SameModes(s, s') && s'.log == s.log + [Joined(client, q, cid, x), Left(client, ByQuery(q))]
      && s'.conns[d].subs == SubsAfter(s, d, q, x, rid', obeyed, obeyed')
  {
    var first := SubscribeSteps(client, q, cid, d, rid, x, body, obeyed);
    var second := UnsubscribeSteps(t, client, q, x, d, rid', body', obeyed');
    SubscribeRun(s, client, q, cid, d, rid, x, body, obeyed);
    BackRun(s, Run(s, first), t, client, q, cid, d, x, rid, rid', body', obeyed');
    RunConcat(s, first, second);
  }

  lemma BackRun(s: S, s1: S, t: Tid, client: Client, q: Param, cid: MsgId, d: int, x: Id,
                rid: Id, rid': Id, body': Msg, obeyed': bool)
    requires New(s, q, d, rid, x) && t !in s.rems && !IsEthSubscriptionID(q)
    requires rid' !in s.gen && (!s.eth ==> rid' != x)
    requires s1.stage == Free && s1.sm == s.sm.Add(q, x).Join(x, client, cid) && s1.pool == s.pool.Add(q, x, d)
    requires s1.gen == (if s.eth then s.gen else s.gen + {x}) && s1.rems == s.rems && SameModes(s, s1)
    requires Maps(s1) == Maps(s)[d := Maps(s)[d].Register(q, x)]
    ensures
      var s' := Run(s1, UnsubscribeSteps(t, client, q, x, d, rid', body', obeyed'));
      && s'.stage == Free
      && s'.sm == s.sm && s'.pool == s.pool && Maps(s') == Maps(s) && s'.gen == s.gen && s'.rems == s.rems
      && SameModes(s, s') && s'.log == s1.log + [Left(client, ByQuery(q))]
      && s'.conns[d].subs == s1.conns[d].Answer(s.eth, rid', Unsub(q, x), x, obeyed').subs
  {
    JoinedAlone(s, s1, client, q, cid, x, d);
    UnsubscribeRun(s1, t, client, q, x, d, rid', body', obeyed');
    RegisterUndone(s, client, q, cid, rid, x, d);
  }

  /** What the node serves after both requests. */
  function SubsAfter(s: S, d: int, q: Param, x: Id, rid': Id, obeyed: bool, obeyed': bool): map<Id, Param>
    requires IsConn(s, d)
  {
    var subs := if obeyed then s.conns[d].subs[x := q] else s.conns[d].subs;
    s.conns[d].(subs := subs).Answer(s.eth, rid', Unsub(q, x), x, obeyed').subs
  }

  /** The node, too, is back where it was exactly when it did not refuse to stop what it had started. */
  lemma NodeRestoredIff(s: S, d: int, q: Param, x: Id, rid': Id, obeyed: bool, obeyed': bool)
    requires IsConn(s, d) && x !in s.conns[d].subs && q !in s.conns[d].subs.Values
    ensures SubsAfter(s, d, q, x, rid', obeyed, obeyed') == s.conns[d].subs <==> (obeyed ==> obeyed')
  {
    var before := s.conns[d].subs;
    assert forall z :: z in before ==> before[z] in before.Values;
    var after := SubsAfter(s, d, q, x, rid', obeyed, obeyed');
    if obeyed && !obeyed' {
      assert x in after;
    } else {
      assert after.Keys == before.Keys;
    }
  }

  lemma JoinedAlone(s: S, s1: S, client: Client, q: Param, cid: MsgId, x: Id, d: int)
    requires Reads(s, d) && !IsEthSubscriptionID(q)
    requires s1.stage == Free && s1.sm == s.sm.Add(q, x).Join(x, client, cid) && s1.pool == s.pool.Add(q, x, d)
    requires SameModes(s, s1) && Maps(s1) == Maps(s)[d := Maps(s)[d].Register(q, x)]
    ensures OnlyFollower(s1, client, q, x, d)
  {
    assert s1.conns[d].maps == Maps(s1)[d];
    assert s1.sm.Leave(x, client).clients[x] == map[];
  }

  lemma RegisterUndone(s: S, client: Client, q: Param, cid: MsgId, rid: Id, x: Id, d: int)
    requires New(s, q, d, rid, x)
    ensures s.sm.Add(q, x).Join(x, client, cid).Leave(x, client).Remove(x) == s.sm
    ensures s.pool.Add(q, x, d).Remove(x) == s.pool
    ensures
      var m := Maps(s)[d := Maps(s)[d].Register(q, x)];
      m[d := m[d].Forget(q, x)] == Maps(s)
  {
    TableUndone(s.sm, client, q, cid, x);
    PoolUndone(s.pool, q, x, d);
    assert Maps(s)[d] == s.conns[d].maps;
    MapsUndone(Maps(s)[d], q, x);
  }

  lemma TableUndone(sm: Table, client: Client, q: Param, cid: MsgId, x: Id)
    requires sm.Valid() && q !in sm.paramToId && x !in sm.idToParam
    ensures sm.Add(q, x).Join(x, client, cid).Leave(x, client).Remove(x) == sm
  {
    RemoveUndoesAdd(sm, q, x);
  }

  lemma PoolUndone(pool: PoolMaps, q: Param, x: Id, d: int)
    requires q !in pool.id && x !in pool.param && x !in pool.conn
    ensures pool.Add(q, x, d).Remove(x) == pool
  {
    assert pool.id[q := x] - {q} == pool.id && pool.param[x := q] - {x} == pool.param;
    assert pool.conn[x := d] - {x} == pool.conn;
  }

  lemma MapsUndone(m: SubMaps, q: Param, x: Id)
    requires x !in m.byId && q !in m.byParam
    ensures m.Register(q, x).Forget(q, x) == m
  {
    assert m.byId[x := q] - {x} == m.byId && m.byParam[q := x] - {q} == m.byParam;
  }

  // ----- requests of one client that overlap

  function OverlapSteps(client: Client, q: Param, r: Param, x: Id, rid: Id, body: Msg): seq<Step> {
    SubscribeSteps(client, q, IntId(1), 0, x, x, body, true) + [Rem(RemFind(9, client, q))] + [Rem(RemCheck(9))]
    + UnsubscribeSteps(10, client, q, x, 0, rid, body, true)
    + SubscribeSteps(client, r, IntId(2), 0, x, x, body, true) + [Rem(RemDrop(9))]
  }

  /** If the requests of one client overlapped, a removal that was looked up for one query could take the
      client from another one: its last request about `r` subscribed, and it does not follow `r`. */
  lemma OverlapLosesAnotherQuery(client: Client, q: Param, r: Param, x: Id, rid: Id, body: Msg)
    requires q != r && rid != x && !IsEthSubscriptionID(q)
    ensures
      var s := Run(Init(false, 1), OverlapSteps(client, q, r, x, rid, body));
      s.sm.Lookup(client, r) == None && Latest(s.log, client, r) == Some(IntId(2))
  {
    var s := Init(false, 1);
    var first := SubscribeSteps(client, q, IntId(1), 0, x, x, body, true);
    var found := first + [Rem(RemFind(9, client, q))] + [Rem(RemCheck(9))];
    FirstRun(client, q, x, body);
    FindRun(Run(s, first), s, first, 9, client, q, x);
    OnlyFollowerKept(Run(s, first), client, q, x, 0, map[9 := Checked(client, ByQuery(q), x)]);
    RegisterUndone(s, client, q, IntId(1), x, x, 0);
    LeaveAndJoinRun(Run(s, found), s, found, client, q, r, x, rid, body);
  }

  /** The first client has subscribed. */
  lemma FirstRun(client: Client, q: Param, x: Id, body: Msg)
    requires !IsEthSubscriptionID(q)
    ensures
      var s := Init(false, 1);
      var s' := Run(s, SubscribeSteps(client, q, IntId(1), 0, x, x, body, true));
      && Maps(s) == [NoSubs] && New(s, q, 0, x, x)
      && !s'.eth && OnlyFollower(s', client, q, x, 0) && s'.rems == map[]
      && s'.sm == s.sm.Add(q, x).Join(x, client, IntId(1)) && s'.pool == s.pool.Add(q, x, 0)
      && Maps(s') == [NoSubs.Register(q, x)] && s'.gen == {x}
  {
    var s := Init(false, 1);
    assert Maps(s) == [NoSubs];
    SubscribeRun(s, client, q, IntId(1), 0, x, x, body, true);
    JoinedAlone(s, Run(s, SubscribeSteps(client, q, IntId(1), 0, x, x, body, true)), client, q, IntId(1), x, 0);
  }

  lemma OnlyFollowerKept(s: S, client: Client, q: Param, x: Id, d: int, rems: map<Tid, Rem>)
    requires OnlyFollower(s, client, q, x, d)
    ensures OnlyFollower(s.(rems := rems), client, q, x, d) && Maps(s.(rems := rems)) == Maps(s)
  {
    SameMaps(s, s.(rems := rems));
  }

  lemma LeaveAndJoinRun(s: S, s0: S, steps: seq<Step>, client: Client, q: Param, r: Param, x: Id, rid: Id, body: Msg)
    requires Run(s0, steps) == s && !s.eth && OnlyFollower(s, client, q, x, 0) && q != r && rid !in s.gen
    requires s.rems == map[9 := Checked(client, ByQuery(q), x)]
    requires s.sm.Leave(x, client).Remove(x) == EmptyTable && s.pool.Remove(x) == EmptyPool
    requires Maps(s) == [NoSubs.Register(q, x)]
    ensures
      var s' := Run(s0, steps + UnsubscribeSteps(10, client, q, x, 0, rid, body, true)
                        + SubscribeSteps(client, r, IntId(2), 0, x, x, body, true) + [Rem(RemDrop(9))]);
      s'.sm.Lookup(client, r) == None && Latest(s'.log, client, r) == Some(IntId(2))
  {
    var leave := UnsubscribeSteps(10, client, q, x, 0, rid, body, true);
    var join := SubscribeSteps(client, r, IntId(2), 0, x, x, body, true);
    UnsubscribeRun(s, 10, client, q, x, 0, rid, body, true);
    RunConcat(s0, steps, leave);
    var s1 := Run(s, leave);
    assert Maps(s1)[0] == s1.conns[0].maps && Maps(s1)[0] == NoSubs.Register(q, x).Forget(q, x);
    MapsUndone(NoSubs, q, x);
    SubscribeRun(s1, client, r, IntId(2), 0, x, x, body, true);
    RunConcat(s0, steps + leave, join);
    LateDropRun(Run(s1, join), s0, steps + leave + join, s1.log, client, q, r, x);
  }

  lemma LateDropRun(s: S, s0: S, steps: seq<Step>, before: seq<Event>, client: Client, q: Param, r: Param, x: Id)
    requires Run(s0, steps) == s && q != r && 9 in s.rems && s.rems[9] == Checked(client, ByQuery(q), x)
    requires s.sm == EmptyTable.Add(r, x).Join(x, client, IntId(2))
    requires s.log == before + [Joined(client, r, IntId(2), x)]
    ensures
      var s' := Run(s0, steps + [Rem(RemDrop(9))]);
      s'.sm.Lookup(client, r) == None && Latest(s'.log, client, r) == Some(IntId(2))
  {
    Chain(s0, steps, s, Rem(RemDrop(9)), DropRem(s, 9));
    assert Front(s.log) == before && Front(s.log + [Left(client, ByQuery(q))]) == s.log;
    assert Follows(s.log, client, r) == Some(Follow(IntId(2), x));
  }
}
