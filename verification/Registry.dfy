/** Table, pool and connections stay consistent through failures, reconnects and resets: the pool has
    exactly the table's subscriptions, and a connection has none that the pool does not place there. */
module Registry {
  import opened Messages
  import opened Subscriptions
  import opened Layers
  import opened Machine
  import opened Frames

  /** A new subscription gets an id, drawn for Cosmos and assigned by the node for Ethereum, that no
      subscription in the table has. */
  ghost predicate Fresh(s: S, step: Step) {
    match step
    case Add(AddSend(_, rid)) => !s.eth ==> rid !in s.sm.idToParam
    case Net(HandOver(c)) =>
      s.eth && s.stage.AddSent? && CanHandOver(s, c) && s.conns[c].mode.ch.w.Holder? ==>
        s.conns[c].mode.sid !in s.sm.idToParam
    case _ => true
  }

  /** What the pool holds, seen from the broker's table: they differ only inside a critical section. */
  function ExpectedPool(sm: Table, stage: Stage): map<Id, Param> {
    match stage
    case AddPooled(_, param, _, sid) => sm.idToParam[sid := param]
    case TearPooled(sid, _) => sm.idToParam - {sid}
    case _ => sm.idToParam
  }

  ghost predicate PoolAgrees(sm: Table, pool: PoolMaps, stage: Stage) {
    pool.Valid() && pool.param == ExpectedPool(sm, stage)
  }

  /** Subscription `x` of query `p` belongs on connection `c`: the pool places it there, or will. */
  predicate Recorded(pool: PoolMaps, stage: Stage, c: int, x: Id, p: Param) {
    || (stage.AddAck? && stage.sid == x && stage.c == c && stage.param == p)
    || (x in pool.conn && pool.conn[x] == c && x in pool.param && pool.param[x] == p
        && !(stage.TearAck? && stage.sid == x))
  }

  /** What a connection has is recorded; it may lack what it has forgotten. */
  ghost predicate Included(pool: PoolMaps, maps: seq<SubMaps>, stage: Stage) {
    && (forall x :: x in pool.conn ==> 0 <= pool.conn[x] < |maps|)
    && (forall c, x :: 0 <= c < |maps| && x in maps[c].byId ==> Recorded(pool, stage, c, x, maps[c].byId[x]))
    && (forall c, p :: 0 <= c < |maps| && p in maps[c].byParam ==>
          maps[c].byParam[p] in maps[c].byId && maps[c].byId[maps[c].byParam[p]] == p)
  }

  /** What the program counter of the mutex's holder says about the table. */
  predicate StageTable(eth: bool, sm: Table, stage: Stage) {
    match stage
    case AddCall(_, p, _) => p !in sm.paramToId
    case AddSent(_, p, _, _, rid, _) => p !in sm.paramToId && (!eth ==> rid !in sm.idToParam)
    case AddGot(_, p, _, _, rid, sid) => p !in sm.paramToId && sid !in sm.idToParam && (!eth ==> sid == rid)
    case AddAck(_, p, _, _, sid) => p !in sm.paramToId && sid !in sm.idToParam
    case AddPooled(_, p, _, sid) => p !in sm.paramToId && sid !in sm.idToParam
    case AddJoin(_, p, _, sid) => sid in sm.idToParam && sm.idToParam[sid] == p
    case TearSent(sid, _, _, _, _, _) => sid in sm.idToParam
    case TearGot(sid, _, _, _, _) => sid in sm.idToParam
    case TearAck(sid, _) => sid in sm.idToParam
    case TearPooled(sid, _) => sid in sm.idToParam
    case _ => true
  }

  /** What it says about the connection that it uses. */
  predicate StageConn(pool: PoolMaps, n: nat, stage: Stage) {
    match stage
    case AddSent(_, _, _, c, _, _) => 0 <= c < n
    case AddGot(_, _, _, c, _, _) => 0 <= c < n
    case AddAck(_, _, _, c, _) => 0 <= c < n
    case TearSent(sid, _, c, _, _, _) => sid in pool.conn && pool.conn[sid] == c
    case TearGot(sid, _, c, _, _) => sid in pool.conn && pool.conn[sid] == c
    case _ => true
  }

  /** An unsubscribe names the query under which the connection has the subscription, if it has it. */
  ghost predicate NamesItsQuery(maps: seq<SubMaps>, stage: Stage) {
    (stage.TearSent? || stage.TearGot?) && 0 <= stage.c < |maps| && stage.sid in maps[stage.c].byId ==>
      maps[stage.c].byId[stage.sid] == stage.param
  }

  ghost predicate Reg(s: S) {
    && s.sm.Valid()
    && PoolAgrees(s.sm, s.pool, s.stage)
    && Included(s.pool, Maps(s), s.stage)
    && StageTable(s.eth, s.sm, s.stage)
    && StageConn(s.pool, |s.conns|, s.stage)
    && NamesItsQuery(Maps(s), s.stage)
  }

  /** Stages outside the four in which two layers differ. */
  predicate Level(stage: Stage) {
    !stage.AddAck? && !stage.AddPooled? && !stage.TearAck? && !stage.TearPooled?
  }

  // ----- what follows

  /** An id that the table does not have is in no layer, between critical sections. */
  lemma UnknownEverywhere(s: S, x: Id)
    requires Reg(s) && Level(s.stage) && x !in s.sm.idToParam
    ensures x !in s.pool.param && x !in s.pool.conn
    ensures forall c :: 0 <= c < |Maps(s)| ==> x !in Maps(s)[c].byId
  {
  }

  /** A query that the pool or a connection knows is in the broker's table, between critical sections. */
  lemma KnownQuery(s: S, p: Param, c: int)
    requires Reg(s) && IsConn(s, c) && Level(s.stage)
    ensures p in s.pool.id || p in s.conns[c].maps.byParam ==> p in s.sm.paramToId
  {
    assert Maps(s)[c] == s.conns[c].maps;
    if p in s.conns[c].maps.byParam {
      assert Recorded(s.pool, s.stage, c, Maps(s)[c].byParam[p], p);
    }
  }

  /** The pool never answers that it has the query already, and no connection refuses it. */
  lemma NeverSubscribedTwice(s: S)
    requires Reg(s)
    ensures !EnabledAdd(s, AddPoolHit)
    ensures forall c :: !EnabledAdd(s, AddExists(c))
  {
    if s.stage.AddCall? {
      assert forall p :: p in s.pool.id ==> s.pool.id[p] in s.sm.idToParam;
      forall c | IsConn(s, c)
        ensures s.stage.param !in s.conns[c].maps.byParam
      {
        KnownQuery(s, s.stage.param, c);
      }
    }
  }

  /** A subscription is on one connection at most. */
  lemma OnOneConn(s: S, x: Id)
    requires Reg(s)
    ensures forall c, d :: IsConn(s, c) && IsConn(s, d) && x in s.conns[c].maps.byId && x in s.conns[d].maps.byId ==>
              c == d
  {
    forall c, d | IsConn(s, c) && IsConn(s, d) && x in s.conns[c].maps.byId && x in s.conns[d].maps.byId
      ensures c == d
    {
      assert Recorded(s.pool, s.stage, c, x, Maps(s)[c].byId[x]);
      assert Recorded(s.pool, s.stage, d, x, Maps(s)[d].byId[x]);
    }
  }

  // ----- every step

  /** The program counter moves between level stages. */
  lemma Moved(s: S, s': S)
    requires Reg(s) && Level(s.stage) && Level(s'.stage) && s'.eth == s.eth && |s'.conns| == |s.conns|
    requires s'.sm == s.sm && s'.pool == s.pool && Maps(s') == Maps(s)
    requires StageTable(s.eth, s.sm, s'.stage) && StageConn(s.pool, |s.conns|, s'.stage)
    requires NamesItsQuery(Maps(s), s'.stage)
    ensures Reg(s')
  {
  }

  lemma CommitAddReg(s: S)
    requires Reg(s) && s.stage.AddGot? && IsConn(s, s.stage.c)
    ensures Reg(CommitAdd(s))
  {
    var g := s.stage;
    UnknownEverywhere(s, g.sid);
    NewMaps(s, CommitAdd(s), g.c, s.conns[g.c].maps.Register(g.param, g.sid));
    RegisterIncluded(s.pool, Maps(s), g, CommitAdd(s).stage);
  }

  lemma RegisterIncluded(pool: PoolMaps, maps: seq<SubMaps>, g: Stage, g': Stage)
    requires Included(pool, maps, g)
    requires g.AddGot? && g' == AddAck(g.client, g.param, g.cid, g.c, g.sid) && 0 <= g.c < |maps|
    requires forall c :: 0 <= c < |maps| ==> g.sid !in maps[c].byId
    ensures Included(pool, maps[g.c := maps[g.c].Register(g.param, g.sid)], g')
  {
    var maps' := maps[g.c := maps[g.c].Register(g.param, g.sid)];
    forall c, x | 0 <= c < |maps| && x in maps'[c].byId
      ensures Recorded(pool, g', c, x, maps'[c].byId[x])
    {
      if x != g.sid {
        assert Recorded(pool, g, c, x, maps[c].byId[x]);
      }
    }
  }

  lemma PoolAddReg(s: S)
    requires Reg(s) && s.stage.AddAck?
    ensures Reg(PoolAdd(s))
  {
    var s' := PoolAdd(s);
    SameMaps(s, s');
    PoolAddAgrees(s.sm, s.pool, s.stage, s'.stage);
    PoolAddIncluded(s.pool, Maps(s), s.stage, s'.stage);
  }

  lemma PoolAddAgrees(sm: Table, pool: PoolMaps, g: Stage, g': Stage)
    requires sm.Valid() && PoolAgrees(sm, pool, g)
    requires g.AddAck? && g.param !in sm.paramToId && g.sid !in sm.idToParam
    requires g' == AddPooled(g.client, g.param, g.cid, g.sid)
    ensures PoolAgrees(sm, pool.Add(g.param, g.sid, g.c), g')
  {
    assert forall p :: p in pool.id ==> pool.id[p] in sm.idToParam;
  }

  lemma PoolAddIncluded(pool: PoolMaps, maps: seq<SubMaps>, g: Stage, g': Stage)
    requires Included(pool, maps, g) && g.AddAck? && g'.AddPooled? && 0 <= g.c < |maps|
    requires g.sid !in pool.conn
    ensures Included(pool.Add(g.param, g.sid, g.c), maps, g')
  {
    forall c, x | 0 <= c < |maps| && x in maps[c].byId
      ensures Recorded(pool.Add(g.param, g.sid, g.c), g', c, x, maps[c].byId[x])
    {
      assert Recorded(pool, g, c, x, maps[c].byId[x]);
    }
  }

  lemma RegisterReg(s: S)
    requires Reg(s) && s.stage.AddPooled?
    ensures Reg(RegisterAdd(s))
  {
    SameMaps(s, RegisterAdd(s));
    AddValidIff(s.sm, s.stage.param, s.stage.sid);
  }

  lemma JoinReg(s: S)
    requires Reg(s) && s.stage.AddJoin?
    ensures s.stage.sid in s.sm.clients && Reg(FinishAdd(s))
  {
    SameMaps(s, FinishAdd(s));
  }

  lemma AddReg(s: S, step: AddStep)
    requires Reg(s) && EnabledAdd(s, step) && Fresh(s, Add(step))
    ensures Reg(ApplyAdd(s, step))
  {
    match step
    case AddEnter(client, param, cid) => EnterAddReg(s, client, param, cid);
    case AddPoolHit => NeverSubscribedTwice(s);
    case AddSend(c, rid) => SendAddReg(s, c, rid);
    case AddCommit => CommitAddReg(s);
    case AddPool => PoolAddReg(s);
    case AddRegister => RegisterReg(s);
    case AddDone => JoinReg(s);
    case _ => AddFrees(s, step); Freed(s, ApplyAdd(s, step));
  }

  lemma EnterAddReg(s: S, client: Client, param: Param, cid: MsgId)
    requires Reg(s) && s.stage.Free?
    ensures Reg(EnterAdd(s, client, param, cid))
  {
    SameMaps(s, EnterAdd(s, client, param, cid));
    Moved(s, EnterAdd(s, client, param, cid));
  }

  lemma SendAddReg(s: S, c: int, rid: Id)
    requires Reg(s) && CanSubscribe(s, c) && Fresh(s, Add(AddSend(c, rid)))
    ensures Reg(SendAdd(s, c, rid))
  {
    SameMaps(s, SendAdd(s, c, rid));
    Moved(s, SendAdd(s, c, rid));
  }

  /** The mutex is released, and no layer has changed. */
  ghost predicate Frees(s: S, s': S) {
    && s'.eth == s.eth && |s'.conns| == |s.conns| && s'.sm == s.sm && s'.pool == s.pool && Maps(s') == Maps(s)
    && Level(s.stage) && s'.stage.Free?
  }

  lemma Freed(s: S, s': S)
    requires Reg(s) && Frees(s, s')
    ensures Reg(s')
  {
    Moved(s, s');
  }

  lemma AddFrees(s: S, step: AddStep)
    requires EnabledAdd(s, step) && (step.AddExists? || step.AddSendFail? || step.AddTimeout?)
    ensures Frees(s, ApplyAdd(s, step))
  {
    SameMaps(s, ApplyAdd(s, step));
  }

  lemma TearFrees(s: S, step: TearStep)
    requires EnabledTear(s, step) && (step.TearMissing? || step.TearSendFail? || step.TearTimeout?)
    ensures Frees(s, ApplyTear(s, step))
  {
    SameMaps(s, ApplyTear(s, step));
  }

  lemma UnfollowReg(s: S, sid: Id, client: Client, target: Target)
    requires Reg(s)
    ensures Reg(Unfollow(s, sid, client, target))
  {
    var s' := Unfollow(s, sid, client, target);
    SameMaps(s, s');
    assert s'.sm.idToParam == s.sm.idToParam && s'.sm.paramToId == s.sm.paramToId;
  }

  lemma RemovalsMatterNot(s: S, rems: map<Tid, Rem>)
    requires Reg(s)
    ensures Reg(s.(rems := rems))
  {
    SameMaps(s, s.(rems := rems));
  }

  lemma RemReg(s: S, step: RemStep)
    requires Reg(s) && EnabledRem(s, step)
    ensures Reg(ApplyRem(s, step))
  {
    var s' := ApplyRem(s, step);
    match step
    case RemFind(_, _, _) => RemovalsMatterNot(s, s'.rems);
    case RemCheck(_) => RemovalsMatterNot(s, s'.rems);
    case RemDrop(t) =>
      UnfollowReg(s, s.rems[t].sid, s.rems[t].client, s.rems[t].target);
      RemovalsMatterNot(Unfollow(s, s.rems[t].sid, s.rems[t].client, s.rems[t].target), s'.rems);
    case AllDrop => DropAllReg(s);
    case _ => SameMaps(s, s'); Moved(s, s');
  }

  lemma DropAllReg(s: S)
    requires Reg(s) && s.stage.AllLoop? && s.stage.ids != []
    ensures Reg(DropAll(s))
  {
    var s1 := Unfollow(s, s.stage.ids[0], s.stage.client, ById(s.stage.ids[0]));
    UnfollowReg(s, s.stage.ids[0], s.stage.client, ById(s.stage.ids[0]));
    SameMaps(s1, DropAll(s));
    Moved(s1, DropAll(s));
  }

  lemma SendTearReg(s: S, rid: Id)
    requires Reg(s) && CanTear(s)
    ensures Reg(SendTear(s, rid))
  {
    SameMaps(s, SendTear(s, rid));
    assert Maps(s)[s.pool.conn[s.stage.sid]] == s.conns[s.pool.conn[s.stage.sid]].maps;
    Moved(s, SendTear(s, rid));
  }

  lemma CommitTearReg(s: S)
    requires Reg(s) && s.stage.TearGot? && IsConn(s, s.stage.c)
    ensures Reg(CommitTear(s))
  {
    var g := s.stage;
    var maps := s.conns[g.c].maps;
    var p := if s.eth then maps.ParamOf(g.sid) else g.param;
    NewMaps(s, CommitTear(s), g.c, maps.Forget(p, g.sid));
    assert Maps(s)[g.c] == maps;
    ForgetIncluded(s.pool, Maps(s), g, CommitTear(s).stage, p);
  }

  /** The deleted query is that of the deleted id, or the id is not there. */
  lemma ForgetIncluded(pool: PoolMaps, maps: seq<SubMaps>, g: Stage, g': Stage, p: Param)
    requires Included(pool, maps, g) && g.TearGot? && g' == TearAck(g.sid, g.next)
    requires g.sid in pool.conn && pool.conn[g.sid] == g.c && 0 <= g.c < |maps|
    requires g.sid in maps[g.c].byId ==> p == maps[g.c].byId[g.sid]
    ensures Included(pool, maps[g.c := maps[g.c].Forget(p, g.sid)], g')
  {
    var maps' := maps[g.c := maps[g.c].Forget(p, g.sid)];
    forall c, x | 0 <= c < |maps| && x in maps'[c].byId
      ensures Recorded(pool, g', c, x, maps'[c].byId[x])
    {
      assert Recorded(pool, g, c, x, maps[c].byId[x]);
    }
  }

  lemma PoolTearReg(s: S)
    requires Reg(s) && s.stage.TearAck?
    ensures Reg(PoolTear(s))
  {
    var s' := PoolTear(s);
    SameMaps(s, s');
    PoolTearIncluded(s.pool, Maps(s), s.stage, s'.stage);
  }

  lemma PoolTearIncluded(pool: PoolMaps, maps: seq<SubMaps>, g: Stage, g': Stage)
    requires Included(pool, maps, g) && pool.Valid() && g.TearAck? && g'.TearPooled? && g.sid in pool.param
    ensures Included(pool.Remove(g.sid), maps, g') && pool.Remove(g.sid).Valid()
  {
    forall c, x | 0 <= c < |maps| && x in maps[c].byId
      ensures Recorded(pool.Remove(g.sid), g', c, x, maps[c].byId[x])
    {
      assert Recorded(pool, g, c, x, maps[c].byId[x]);
    }
  }

  lemma FinishTearReg(s: S)
    requires Reg(s) && s.stage.TearPooled?
    ensures Reg(FinishTear(s))
  {
    SameMaps(s, FinishTear(s));
    RemoveValidIff(s.sm, s.stage.sid);
    TornAgrees(s.sm, s.pool, s.stage, FinishTear(s).stage);
  }

  lemma TornAgrees(sm: Table, pool: PoolMaps, g: Stage, g': Stage)
    requires PoolAgrees(sm, pool, g) && g.TearPooled? && Level(g')
    ensures PoolAgrees(sm.Remove(g.sid), pool, g')
  {
  }

  lemma TearReg(s: S, step: TearStep)
    requires Reg(s) && EnabledTear(s, step)
    ensures Reg(ApplyTear(s, step))
  {
    match step
    case TearSend(rid) => SendTearReg(s, rid);
    case TearCommit => CommitTearReg(s);
    case TearPool => PoolTearReg(s);
    case TearDone => FinishTearReg(s);
    case _ => TearFrees(s, step); Freed(s, ApplyTear(s, step));
  }

  lemma HandReg(s: S, c: int)
    requires Reg(s) && CanHandOver(s, c) && Fresh(s, Net(HandOver(c)))
    ensures Reg(Hand(s, c))
  {
    HandChanges(s, c);
    if Hand(s, c).stage != s.stage {
      Moved(s, Hand(s, c));
    }
  }

  /** A reset loses what the connection had. */
  lemma NetReg(s: S, step: NetStep)
    requires Reg(s) && EnabledNet(s, step) && Fresh(s, Net(step))
    ensures Reg(ApplyNet(s, step))
  {
    if step.HandOver? {
      HandReg(s, step.c);
    } else {
      NetChanges(s, step);
    }
  }

  /** Every fresh step keeps the consistency of table, pool and connections, resets included. */
  lemma StepReg(s: S, step: Step)
    requires Reg(s) && Enabled(s, step) && Fresh(s, step)
    ensures Reg(Apply(s, step))
  {
    match step
    case Add(a) => AddReg(s, a);
    case Rem(r) => RemReg(s, r);
    case Tear(t) => TearReg(s, t);
    case Net(n) => NetReg(s, n);
  }

  lemma InitReg(eth: bool, n: nat)
    ensures Reg(Init(eth, n))
  {
    var s := Init(eth, n);
    assert forall c :: 0 <= c < n ==> Maps(s)[c] == NoSubs;
  }

  /** A run in which every id that a new subscription gets is fresh where it is. */
  ghost predicate FreshRun(s: S, steps: seq<Step>)
    decreases |steps|
  {
    steps == [] ||
    (FreshRun(s, Front(steps)) &&
     (Enabled(Run(s, Front(steps)), Last(steps)) ==> Fresh(Run(s, Front(steps)), Last(steps))))
  }

  lemma {:induction false} RunReg(s: S, steps: seq<Step>)
    requires Reg(s) && FreshRun(s, steps)
    ensures Reg(Run(s, steps))
    decreases |steps|
  {
    if steps != [] {
      RunReg(s, Front(steps));
      var r := Run(s, Front(steps));
      if Enabled(r, Last(steps)) {
        StepReg(r, Last(steps));
      }
    }
  }
}
