/** The four layers of maps agree, whatever the goroutines interleave, while no connection forgets. */
module Agreement {
  import opened Subscriptions
  import opened Layers
  import opened Machine
  import opened Frames
  import opened Registry

  /** No layer holds a subscription under `x`. */
  ghost predicate NotHeld(sm: Table, pool: PoolMaps, maps: seq<SubMaps>, x: Id) {
    x !in sm.idToParam && x !in pool.param && (forall c :: 0 <= c < |maps| ==> x !in maps[c].byId)
  }

  /** An Ethereum connection is not reset while it holds subscriptions. */
  ghost predicate Intact(s: S, step: Step) {
    match step
    case Net(Reconnect(c, _)) => s.eth && IsConn(s, c) ==> s.conns[c].maps == NoSubs
    case _ => true
  }

  /** Connection `c` is to have subscription `x`, seen from the pool. */
  predicate ExpectedConn(pool: PoolMaps, stage: Stage, c: int, x: Id) {
    || (stage.AddAck? && stage.sid == x && stage.c == c)
    || (x in pool.conn && pool.conn[x] == c && !(stage.TearAck? && stage.sid == x))
  }

  /** A connection has all that it is to have, in both directions. */
  ghost predicate Complete(pool: PoolMaps, maps: seq<SubMaps>, stage: Stage) {
    && (forall c, x :: 0 <= c < |maps| && ExpectedConn(pool, stage, c, x) ==> x in maps[c].byId)
    && (forall c, x :: 0 <= c < |maps| && x in maps[c].byId ==>
          maps[c].byId[x] in maps[c].byParam && maps[c].byParam[maps[c].byId[x]] == x)
  }

  ghost predicate ConnsAgree(pool: PoolMaps, maps: seq<SubMaps>, stage: Stage) {
    Included(pool, maps, stage) && Complete(pool, maps, stage)
  }

  ghost predicate Whole(s: S) {
    Complete(s.pool, Maps(s), s.stage)
  }

  ghost predicate Inv(s: S) {
    Reg(s) && Whole(s)
  }

  /** The connection that the pool records holds the subscription, under the same query. */
  lemma HeldByConn(s: S, c: int, x: Id)
    requires Inv(s) && Level(s.stage)
    requires x in s.pool.conn && s.pool.conn[x] == c
    ensures x in s.sm.idToParam && IsConn(s, c)
    ensures x in s.conns[c].maps.byId && s.conns[c].maps.byId[x] == s.sm.idToParam[x]
  {
    assert ExpectedConn(s.pool, s.stage, c, x);
    assert Recorded(s.pool, s.stage, c, x, Maps(s)[c].byId[x]);
  }

  /** A move of the program counter between stages in which pool and connections agree. */
  lemma LevelConns(pool: PoolMaps, maps: seq<SubMaps>, stage: Stage, stage': Stage)
    requires ConnsAgree(pool, maps, stage)
    requires !stage.AddAck? && !stage.TearAck? && !stage'.AddAck? && !stage'.TearAck?
    ensures ConnsAgree(pool, maps, stage')
  {
  }

  // ----- every step

  /** Neither pool nor connections change, and the holder of the mutex is not between the two. */
  lemma StillComplete(s: S, s': S)
    requires Whole(s) && s'.pool == s.pool && Maps(s') == Maps(s)
    requires s'.stage == s.stage || (!s.stage.AddAck? && !s.stage.TearAck? && !s'.stage.AddAck? && !s'.stage.TearAck?)
    ensures Whole(s')
  {
  }

  lemma CommitAddComplete(s: S)
    requires Inv(s) && s.stage.AddGot? && IsConn(s, s.stage.c)
    ensures Whole(CommitAdd(s))
  {
    var g := s.stage;
    KnownQuery(s, g.param, g.c);
    NewMaps(s, CommitAdd(s), g.c, s.conns[g.c].maps.Register(g.param, g.sid));
    RegisterComplete(s.pool, Maps(s), g, CommitAdd(s).stage);
  }

  lemma RegisterComplete(pool: PoolMaps, maps: seq<SubMaps>, g: Stage, g': Stage)
    requires Complete(pool, maps, g)
    requires g.AddGot? && g' == AddAck(g.client, g.param, g.cid, g.c, g.sid)
    requires 0 <= g.c < |maps| && g.param !in maps[g.c].byParam
    ensures Complete(pool, maps[g.c := maps[g.c].Register(g.param, g.sid)], g')
  {
    var maps' := maps[g.c := maps[g.c].Register(g.param, g.sid)];
    forall c, x | 0 <= c < |maps| && ExpectedConn(pool, g', c, x)
      ensures x in maps'[c].byId
    {
      assert ExpectedConn(pool, g, c, x) || (c == g.c && x == g.sid);
    }
  }

  lemma PoolAddComplete(pool: PoolMaps, maps: seq<SubMaps>, g: Stage, g': Stage)
    requires Complete(pool, maps, g) && g.AddAck? && g'.AddPooled?
    ensures Complete(pool.Add(g.param, g.sid, g.c), maps, g')
  {
    forall c, x | 0 <= c < |maps| && ExpectedConn(pool.Add(g.param, g.sid, g.c), g', c, x)
      ensures x in maps[c].byId
    {
      assert ExpectedConn(pool, g, c, x);
    }
  }

  lemma AddComplete(s: S, step: AddStep)
    requires Inv(s) && EnabledAdd(s, step)
    ensures Whole(ApplyAdd(s, step))
  {
    var s' := ApplyAdd(s, step);
    match step
    case AddCommit => CommitAddComplete(s);
    case AddPool => SameMaps(s, s'); PoolAddComplete(s.pool, Maps(s), s.stage, s'.stage);
    case _ => AddChangesNothing(s, step); StillComplete(s, s');
  }

  lemma AddChangesNothing(s: S, step: AddStep)
    requires EnabledAdd(s, step) && !step.AddCommit? && !step.AddPool?
    ensures
      var s' := ApplyAdd(s, step);
      && s'.pool == s.pool && Maps(s') == Maps(s)
      && !s.stage.AddAck? && !s.stage.TearAck? && !s'.stage.AddAck? && !s'.stage.TearAck?
  {
    SameMaps(s, ApplyAdd(s, step));
  }

  lemma RemComplete(s: S, step: RemStep)
    requires Whole(s) && EnabledRem(s, step)
    ensures Whole(ApplyRem(s, step))
  {
    SameMaps(s, ApplyRem(s, step));
    StillComplete(s, ApplyRem(s, step));
  }

  lemma CommitTearComplete(s: S)
    requires Inv(s) && s.stage.TearGot? && IsConn(s, s.stage.c)
    ensures Whole(CommitTear(s))
  {
    var g := s.stage;
    HeldByConn(s, g.c, g.sid);
    assert Maps(s)[g.c] == s.conns[g.c].maps;
    NewMaps(s, CommitTear(s), g.c, s.conns[g.c].maps.Forget(g.param, g.sid));
    ForgetComplete(s.pool, Maps(s), g, CommitTear(s).stage);
  }

  lemma ForgetComplete(pool: PoolMaps, maps: seq<SubMaps>, g: Stage, g': Stage)
    requires Complete(pool, maps, g) && g.TearGot? && g' == TearAck(g.sid, g.next)
    requires 0 <= g.c < |maps| && g.sid in maps[g.c].byId && maps[g.c].byId[g.sid] == g.param
    ensures Complete(pool, maps[g.c := maps[g.c].Forget(g.param, g.sid)], g')
  {
    var maps' := maps[g.c := maps[g.c].Forget(g.param, g.sid)];
    forall c, x | 0 <= c < |maps| && ExpectedConn(pool, g', c, x)
      ensures x in maps'[c].byId
    {
      assert ExpectedConn(pool, g, c, x);
    }
  }

  lemma PoolTearComplete(pool: PoolMaps, maps: seq<SubMaps>, g: Stage, g': Stage)
    requires Complete(pool, maps, g) && g.TearAck? && g'.TearPooled?
    ensures Complete(pool.Remove(g.sid), maps, g')
  {
    forall c, x | 0 <= c < |maps| && ExpectedConn(pool.Remove(g.sid), g', c, x)
      ensures x in maps[c].byId
    {
      assert ExpectedConn(pool, g, c, x);
    }
  }

  lemma TearComplete(s: S, step: TearStep)
    requires Inv(s) && EnabledTear(s, step)
    ensures Whole(ApplyTear(s, step))
  {
    var s' := ApplyTear(s, step);
    match step
    case TearCommit => CommitTearComplete(s);
    case TearPool => SameMaps(s, s'); PoolTearComplete(s.pool, Maps(s), s.stage, s'.stage);
    case _ => SameMaps(s, s'); StillComplete(s, s');
  }

  lemma NetComplete(s: S, step: NetStep)
    requires Inv(s) && EnabledNet(s, step) && Intact(s, Net(step))
    ensures Whole(ApplyNet(s, step))
  {
    NetChanges(s, step);
    if step.HandOver? {
      HandChanges(s, step.c);
    }
    if step.Reconnect? {
      assert Maps(s)[step.c] == s.conns[step.c].maps;
    }
    StillComplete(s, ApplyNet(s, step));
  }

  /** Every fresh and intact step keeps the invariant. */
  lemma StepKeeps(s: S, step: Step)
    requires Inv(s) && Enabled(s, step) && Fresh(s, step) && Intact(s, step)
    ensures Inv(Apply(s, step))
  {
    StepReg(s, step);
    match step
    case Add(a) => AddComplete(s, a);
    case Rem(r) => RemComplete(s, r);
    case Tear(t) => TearComplete(s, t);
    case Net(n) => NetComplete(s, n);
  }

  lemma InitHolds(eth: bool, n: nat)
    ensures Inv(Init(eth, n))
  {
    InitReg(eth, n);
    assert forall c :: 0 <= c < n ==> Maps(Init(eth, n))[c] == NoSubs;
  }

  /** A run in which no Ethereum connection is reset while it holds subscriptions. */
  ghost predicate IntactRun(s: S, steps: seq<Step>)
    decreases |steps|
  {
    steps == [] ||
    (IntactRun(s, Front(steps)) &&
     (Enabled(Run(s, Front(steps)), Last(steps)) ==> Intact(Run(s, Front(steps)), Last(steps))))
  }

  /** Every run over Cosmos is one. */
  lemma {:induction false} CosmosIsIntact(s: S, steps: seq<Step>)
    requires !s.eth
    ensures IntactRun(s, steps)
    decreases |steps|
  {
    if steps != [] {
      CosmosIsIntact(s, Front(steps));
      RunKind(s, Front(steps));
    }
  }

  /** The invariant holds after every fresh and intact schedule. */
  lemma {:induction false} RunKeeps(eth: bool, n: nat, steps: seq<Step>)
    requires FreshRun(Init(eth, n), steps) && IntactRun(Init(eth, n), steps)
    ensures Inv(Run(Init(eth, n), steps))
    decreases |steps|
  {
    if steps == [] {
      InitHolds(eth, n);
    } else {
      RunKeeps(eth, n, Front(steps));
      var s := Run(Init(eth, n), Front(steps));
      if Enabled(s, Last(steps)) {
        StepKeeps(s, Last(steps));
      }
    }
  }
}
