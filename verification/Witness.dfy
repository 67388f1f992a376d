/** The assumptions under which the broker's guarantees hold can be met together: a first client subscribes and
    is notified in a schedule that meets all of them. */
module Witness {
  import opened Messages
  import opened Subscriptions
  import opened Machine
  import opened Registry
  import opened Agreement
  import opened Ownership
  import opened Wire
  import opened Notices
  import opened Intent

  /** What the guarantees assume of a step. */
  ghost predicate Assumed(s: S, step: Step)
    requires Enabled(s, step)
  {
    && Fresh(s, step) && Intact(s, step) && Ownership.Sound(step)
    && QuietStep(s, step) && Distinct(s, step) && Orderly(s, step)
  }

  /** A schedule meets all the assumptions. */
  ghost predicate MeetsAll(s: S, steps: seq<Step>) {
    && FreshRun(s, steps) && IntactRun(s, steps) && SoundRun(s, steps)
    && QuietRun(s, steps) && DistinctRun(s, steps) && OrderlyRun(s, steps)
  }

  lemma Extends(s0: S, steps: seq<Step>, s: S, step: Step, s': S)
    requires MeetsAll(s0, steps) && Run(s0, steps) == s
    requires Enabled(s, step) && Assumed(s, step) && Apply(s, step) == s'
    ensures MeetsAll(s0, steps + [step]) && Run(s0, steps + [step]) == s'
  {
    assert Front(steps + [step]) == steps && Last(steps + [step]) == step;
  }

  /** The subscribe is sent, answered and handed over. */
  function AskSteps(client: Client, q: Param, cid: MsgId, d: int, rid: Id, body: Msg, x: Id): seq<Step> {
    [Add(AddEnter(client, q, cid))] + [Add(AddSend(d, rid))] + [Net(Reply(d, rid, Sub(q), body, x, true))]
    + [Net(HandOver(d))]
  }

  /** It is recorded in every layer, and then the node notifies. */
  function ServeSteps(d: int, x: Id, note: Msg): seq<Step> {
    [Add(AddCommit)] + [Add(AddPool)] + [Add(AddRegister)] + [Add(AddDone)] + [Net(Notify(d, x, note))]
  }

  lemma AskMeetsAll(eth: bool, n: nat, client: Client, q: Param, cid: MsgId, d: int, rid: Id, body: Msg, x: Id)
    requires 0 <= d < n && (!eth ==> x == rid)
    ensures
      var s0 := Init(eth, n);
      var s := Run(s0, AskSteps(client, q, cid, d, rid, body, x));
      && MeetsAll(s0, AskSteps(client, q, cid, d, rid, body, x))
      && s.stage == AddGot(client, q, cid, d, rid, x) && s.eth == eth
      && s.sm == EmptyTable && s.rems == map[] && s.sent == []
      && IsConn(s, d) && s.conns[d].mode.Reading? && s.conns[d].subs == map[x := q]
      && s.conns[d].resp == map[]
  {
    var s0 := Init(eth, n);
    var a, b := Add(AddEnter(client, q, cid)), Add(AddSend(d, rid));
    var s1 := EnterAdd(s0, client, q, cid);
    Extends(s0, [], s0, a, s1);
    var s2 := SendAdd(s1, d, rid);
    Extends(s0, [a], s1, b, s2);
    AnswerMeetsAll(s0, [a] + [b], s2, d, rid, q, body, x);
  }

  lemma AnswerMeetsAll(s0: S, steps: seq<Step>, s: S, d: int, rid: Id, q: Param, body: Msg, x: Id)
    requires MeetsAll(s0, steps) && Run(s0, steps) == s && (!s.eth ==> x == rid)
    requires IsConn(s, d) && s.conns[d].mode.Reading? && s.conns[d].owed == {(rid, Sub(q))}
    requires s.conns[d].subs == map[] && s.conns[d].maps.byId == map[] && s.sm == EmptyTable && s.rems == map[]
    requires s.stage.AddSent? && s.stage.param == q && s.stage.c == d && s.stage.rid == rid
    requires s.conns[d].resp == map[rid := Chan(Holder, s.stage.k)] && s.sent == []
    ensures
      var all := steps + [Net(Reply(d, rid, Sub(q), body, x, true))] + [Net(HandOver(d))];
      var s' := Run(s0, all);
      && MeetsAll(s0, all)
      && s'.stage == AddGot(s.stage.client, q, s.stage.cid, d, rid, x) && s'.eth == s.eth
      && s'.sm == EmptyTable && s'.rems == map[] && s'.sent == []
      && IsConn(s', d) && s'.conns[d].mode.Reading? && s'.conns[d].subs == map[x := q] && s'.conns[d].resp == map[]
  {
    var a, b := Net(Reply(d, rid, Sub(q), body, x, true)), Net(HandOver(d));
    var s1 := PickUp(Answered(s, d, rid, Sub(q), x, true), d, rid, Some(Sub(q)), body, x);
    Extends(s0, steps, s, a, s1);
    Extends(s0, steps + [a], s1, b, Hand(s1, d));
    assert s.conns[d].resp - {rid} == map[];
  }

  lemma RegisterMeetsAll(s0: S, steps: seq<Step>, s: S, x: Id)
    requires MeetsAll(s0, steps) && Run(s0, steps) == s && s.stage.AddGot? && s.stage.sid == x
    requires IsConn(s, s.stage.c) && s.sm == EmptyTable
    ensures
      var g := s.stage;
      var all := steps + [Add(AddCommit)] + [Add(AddPool)] + [Add(AddRegister)];
      var s' := Run(s0, all);
      && MeetsAll(s0, all) && s'.stage == AddJoin(g.client, g.param, g.cid, x)
      && s'.sm == EmptyTable.Add(g.param, x) && s'.sent == s.sent && IsConn(s', g.c) && s'.eth == s.eth
      && s'.conns[g.c] == s.conns[g.c].(maps := s.conns[g.c].maps.Register(g.param, x))
  {
    var s1 := CommitAdd(s);
    Extends(s0, steps, s, Add(AddCommit), s1);
    var s2 := PoolAdd(s1);
    Extends(s0, steps + [Add(AddCommit)], s1, Add(AddPool), s2);
    Extends(s0, steps + [Add(AddCommit)] + [Add(AddPool)], s2, Add(AddRegister), RegisterAdd(s2));
  }

  lemma NotifyMeetsAll(s0: S, steps: seq<Step>, s: S, c: int, x: Id, note: Msg)
    requires MeetsAll(s0, steps) && Run(s0, steps) == s && s.stage.AddJoin? && s.stage.sid == x
    requires s.sm == EmptyTable.Add(s.stage.param, x) && s.sent == []
    requires IsConn(s, c) && s.conns[c].mode.Reading? && s.conns[c].resp == map[]
    requires x in s.conns[c].subs && x in s.conns[c].maps.byId
    ensures
      var all := steps + [Add(AddDone)] + [Net(Notify(c, x, note))];
      && MeetsAll(s0, all)
      && Run(s0, all).sent == [Broadcast(x, map[s.stage.client := note.(id := s.stage.cid)])]
  {
    var s1 := FinishAdd(s);
    Extends(s0, steps, s, Add(AddDone), s1);
    var s2 := Spread(s1, x, note);
    assert s1.sm.ClientsOf(x) == map[s.stage.client := s.stage.cid];
    Extends(s0, steps + [Add(AddDone)], s1, Net(Notify(c, x, note)), s2);
    assert s2.sent[0].sends == map[s.stage.client := note.(id := s.stage.cid)];
  }

  /** Whoever subscribes first to whatever query, over either kind of connection: there is a schedule that meets
      every assumption in which the node's first notification reaches that client under its own id, and
      nobody else. */
  lemma FirstClientIsServed(eth: bool, n: nat, client: Client, q: Param, cid: MsgId, d: int, rid: Id, body: Msg,
                            x: Id, note: Msg)
    requires 0 <= d < n && (!eth ==> x == rid)
    ensures
      var steps := AskSteps(client, q, cid, d, rid, body, x) + ServeSteps(d, x, note);
      && MeetsAll(Init(eth, n), steps)
      && Run(Init(eth, n), steps).sent == [Broadcast(x, map[client := note.(id := cid)])]
  {
    var asked := AskSteps(client, q, cid, d, rid, body, x);
    AskMeetsAll(eth, n, client, q, cid, d, rid, body, x);
    RegisterMeetsAll(Init(eth, n), asked, Run(Init(eth, n), asked), x);
    var joining := asked + [Add(AddCommit)] + [Add(AddPool)] + [Add(AddRegister)];
    NotifyMeetsAll(Init(eth, n), joining, Run(Init(eth, n), joining), d, x, note);
    assert asked + ServeSteps(d, x, note) ==
           asked + [Add(AddCommit)] + [Add(AddPool)] + [Add(AddRegister)] + [Add(AddDone)] + [Net(Notify(d, x, note))];
  }
}
