/** Every id that the generator holds has one owner: a request in flight or a live Cosmos subscription. */
module Ownership {
  import opened Messages
  import opened Subscriptions
  import opened Layers
  import opened Machine
  import opened Frames
  import opened Registry
  import opened Agreement

  /** The id under which the holder of the mutex has a request in flight. */
  function HolderRid(stage: Stage): Option<Id> {
    match stage
    case AddSent(_, _, _, _, rid, _) => Some(rid)
    case AddGot(_, _, _, _, rid, _) => Some(rid)
    case TearSent(_, _, _, rid, _, _) => Some(rid)
    case TearGot(_, _, _, rid, _) => Some(rid)
    case _ => None
  }

  ghost predicate InFlight(calls: map<Tid, Flight>, x: Id) {
    exists t :: t in calls && calls[t].rid == x
  }

  ghost predicate Held(maps: seq<SubMaps>, x: Id) {
    exists c :: 0 <= c < |maps| && x in maps[c].byId
  }

  /** Exactly the owned ids are marked generated, and no id has two owners. */
  ghost predicate Own(eth: bool, gen: set<Id>, stage: Stage, calls: map<Tid, Flight>, maps: seq<SubMaps>) {
    && (forall x :: x in gen <==> HolderRid(stage) == Some(x) || InFlight(calls, x) || (!eth && Held(maps, x)))
    && (forall t, u :: t in calls && u in calls && calls[t].rid == calls[u].rid ==> t == u)
    && (forall t :: t in calls ==> HolderRid(stage) != Some(calls[t].rid))
    && (!eth ==> forall x :: Held(maps, x) ==> HolderRid(stage) != Some(x) && !InFlight(calls, x))
  }

  ghost predicate OwnS(s: S) {
    Own(s.eth, s.gen, s.stage, s.calls, Maps(s))
  }

  /** What the generator does not hold no layer holds, between critical sections. */
  lemma UndrawnIsFresh(s: S, x: Id)
    requires Inv(s) && OwnS(s) && !s.eth && Level(s.stage) && x !in s.gen
    ensures NotHeld(s.sm, s.pool, Maps(s), x)
  {
    assert forall c :: 0 <= c < |Maps(s)| && x in Maps(s)[c].byId ==> Held(Maps(s), x);
    forall y | y in s.pool.param
      ensures y in s.gen
    {
      HeldByConn(s, s.pool.conn[y], y);
      assert y in Maps(s)[s.pool.conn[y]].byId;
    }
  }

  lemma SameOwner(s: S, s': S)
    requires OwnS(s)
    requires s'.eth == s.eth && s'.gen == s.gen && s'.calls == s.calls && Maps(s') == Maps(s)
    requires HolderRid(s'.stage) == HolderRid(s.stage)
    ensures OwnS(s')
  {
  }

  lemma HolderReleases(eth: bool, gen: set<Id>, stage: Stage, calls: map<Tid, Flight>, maps: seq<SubMaps>, rid: Id,
                       stage': Stage)
    requires Own(eth, gen, stage, calls, maps)
    requires HolderRid(stage) == Some(rid) && HolderRid(stage') == None
    ensures Own(eth, gen - {rid}, stage', calls, maps)
  {
  }

  lemma CallerDraws(eth: bool, gen: set<Id>, stage: Stage, calls: map<Tid, Flight>, maps: seq<SubMaps>, t: Tid,
                    f: Flight)
    requires Own(eth, gen, stage, calls, maps)
    requires f.rid !in gen && t !in calls
    ensures Own(eth, gen + {f.rid}, stage, calls[t := f], maps)
  {
    var calls' := calls[t := f];
    assert calls'[t].rid == f.rid;
    assert forall u :: u in calls ==> InFlight(calls, calls[u].rid) && calls'[u] == calls[u];
    forall x
      ensures InFlight(calls', x) <==> InFlight(calls, x) || x == f.rid
    {
      if InFlight(calls, x) {
        var u :| u in calls && calls[u].rid == x;
        assert calls'[u].rid == x;
      }
    }
  }

  lemma CallerReleases(eth: bool, gen: set<Id>, stage: Stage, calls: map<Tid, Flight>, maps: seq<SubMaps>, t: Tid)
    requires Own(eth, gen, stage, calls, maps) && t in calls
    ensures Own(eth, gen - {calls[t].rid}, stage, calls - {t}, maps)
  {
    var rid := calls[t].rid;
    assert InFlight(calls, rid);
    forall x
      ensures InFlight(calls - {t}, x) <==> InFlight(calls, x) && x != rid
    {
      if InFlight(calls, x) && x != rid {
        var u :| u in calls && calls[u].rid == x;
        assert u in calls - {t};
      }
    }
  }

  /** The id of a Cosmos subscription passes from the request to the subscription. */
  lemma HolderRegisters(gen: set<Id>, stage: Stage, calls: map<Tid, Flight>, maps: seq<SubMaps>, maps': seq<SubMaps>,
                        c: int, p: Param, rid: Id, stage': Stage)
    requires Own(false, gen, stage, calls, maps)
    requires HolderRid(stage) == Some(rid) && HolderRid(stage') == None
    requires 0 <= c < |maps| && maps' == maps[c := maps[c].Register(p, rid)]
    ensures Own(false, gen, stage', calls, maps')
  {
    forall x
      ensures Held(maps', x) <==> Held(maps, x) || x == rid
    {
      if Held(maps, x) {
        var d :| 0 <= d < |maps| && x in maps[d].byId;
        assert x in maps'[d].byId;
      }
      assert rid in maps'[c].byId;
    }
    assert !InFlight(calls, rid);
  }

  lemma HolderForgets(gen: set<Id>, stage: Stage, calls: map<Tid, Flight>, maps: seq<SubMaps>, maps': seq<SubMaps>,
                      c: int, p: Param, sid: Id, rid: Id, stage': Stage)
    requires Own(false, gen, stage, calls, maps)
    requires HolderRid(stage) == Some(rid) && HolderRid(stage') == None
    requires 0 <= c < |maps| && maps' == maps[c := maps[c].Forget(p, sid)]
    requires sid in maps[c].byId && (forall d :: 0 <= d < |maps| && sid in maps[d].byId ==> d == c)
    ensures Own(false, gen - {rid, sid}, stage', calls, maps')
  {
    assert Held(maps, sid);
    forall x
      ensures Held(maps', x) <==> Held(maps, x) && x != sid
    {
      if Held(maps, x) && x != sid {
        var d :| 0 <= d < |maps| && x in maps[d].byId;
        assert x in maps'[d].byId;
      }
    }
  }

  lemma EthMapsFree(gen: set<Id>, stage: Stage, calls: map<Tid, Flight>, maps: seq<SubMaps>, maps': seq<SubMaps>)
    requires Own(true, gen, stage, calls, maps)
    ensures Own(true, gen, stage, calls, maps')
  {
  }

  lemma CommitAddOwns(s: S)
    requires OwnS(s) && s.stage.AddGot? && IsConn(s, s.stage.c) && (!s.eth ==> s.stage.sid == s.stage.rid)
    ensures OwnS(CommitAdd(s))
  {
    var s' := CommitAdd(s);
    var g := s.stage;
    NewMaps(s, s', g.c, s.conns[g.c].maps.Register(g.param, g.sid));
    if s.eth {
      HolderReleases(true, s.gen, g, s.calls, Maps(s), g.rid, s'.stage);
      EthMapsFree(s'.gen, s'.stage, s.calls, Maps(s), Maps(s'));
    } else {
      HolderRegisters(s.gen, g, s.calls, Maps(s), Maps(s'), g.c, g.param, g.rid, s'.stage);
    }
  }

  lemma CommitTearOwns(s: S)
    requires OwnS(s) && s.stage.TearGot? && IsConn(s, s.stage.c) && (!s.eth ==> Inv(s))
    ensures OwnS(CommitTear(s))
  {
    var s' := CommitTear(s);
    var g := s.stage;
    if s.eth {
      HolderReleases(true, s.gen, g, s.calls, Maps(s), g.rid, s'.stage);
      EthMapsFree(s'.gen, s'.stage, s.calls, Maps(s), Maps(s'));
    } else {
      HeldByConn(s, g.c, g.sid);
      NewMaps(s, s', g.c, s.conns[g.c].maps.Forget(g.param, g.sid));
      assert Maps(s)[g.c] == s.conns[g.c].maps;
      OnOneConn(s, g.sid);
      assert forall d :: IsConn(s, d) ==> Maps(s)[d] == s.conns[d].maps;
      HolderForgets(s.gen, g, s.calls, Maps(s), Maps(s'), g.c, g.param, g.sid, g.rid, s'.stage);
    }
  }

  /** The holder of the mutex draws an id and sends. */
  lemma Drawn(s: S, s': S, rid: Id)
    requires OwnS(s) && rid !in s.gen && HolderRid(s.stage) == None && HolderRid(s'.stage) == Some(rid)
    requires s'.eth == s.eth && s'.calls == s.calls && s'.gen == s.gen + {rid} && Maps(s') == Maps(s)
    ensures OwnS(s')
  {
  }

  /** The holder of the mutex waits no longer and releases its id. */
  lemma Released(s: S, s': S, rid: Id)
    requires OwnS(s) && HolderRid(s.stage) == Some(rid) && HolderRid(s'.stage) == None
    requires s'.eth == s.eth && s'.calls == s.calls && s'.gen == s.gen - {rid} && Maps(s') == Maps(s)
    ensures OwnS(s')
  {
  }

  lemma AddStepOwns(s: S, step: AddStep)
    requires OwnS(s) && EnabledAdd(s, step) && !step.AddCommit?
    ensures OwnS(ApplyAdd(s, step))
  {
    var s' := ApplyAdd(s, step);
    SameMaps(s, s');
    match step
    case AddSend(c, rid) => Drawn(s, s', rid);
    case AddTimeout => Released(s, s', s.stage.rid);
    case _ => SameOwner(s, s');
  }

  lemma RemStepOwns(s: S, step: RemStep)
    requires OwnS(s) && EnabledRem(s, step)
    ensures OwnS(ApplyRem(s, step))
  {
    var s' := ApplyRem(s, step);
    SameMaps(s, s');
    SameOwner(s, s');
  }

  lemma TearStepOwns(s: S, step: TearStep)
    requires OwnS(s) && EnabledTear(s, step) && !step.TearCommit?
    ensures OwnS(ApplyTear(s, step))
  {
    var s' := ApplyTear(s, step);
    SameMaps(s, s');
    match step
    case TearSend(rid) => Drawn(s, s', rid);
    case TearTimeout => Released(s, s', s.stage.rid);
    case _ => SameOwner(s, s');
  }

  /** A reply that is handed over ends one request and releases its id, or moves the holder on. */
  lemma HandOwns(s: S, c: int)
    requires OwnS(s) && CanHandOver(s, c)
    ensures OwnS(Hand(s, c))
  {
    var s' := Hand(s, c);
    SameMaps(s, s');
    match s.conns[c].mode.ch.w
    case Holder =>
      HandMovesHolder(s, c);
      SameOwner(s, s');
    case Caller(t) => CallerReleases(s.eth, s.gen, s.stage, s.calls, Maps(s), t);
  }

  lemma HandMovesHolder(s: S, c: int)
    requires CanHandOver(s, c) && s.conns[c].mode.ch.w.Holder?
    ensures HolderRid(Hand(s, c).stage) == HolderRid(s.stage)
    ensures Hand(s, c).gen == s.gen && Hand(s, c).calls == s.calls && Hand(s, c).eth == s.eth
  {
  }

  lemma ArrivalOwns(s: S, step: NetStep)
    requires OwnS(s) && EnabledNet(s, step) && IsArrival(step)
    ensures OwnS(ApplyNet(s, step))
  {
    ArrivalChanges(s, step);
    SameOwner(s, ApplyNet(s, step));
  }

  lemma NetStepOwns(s: S, step: NetStep)
    requires OwnS(s) && EnabledNet(s, step) && !step.ResubFail?
    ensures OwnS(ApplyNet(s, step))
  {
    var s' := ApplyNet(s, step);
    match step
    case CallSend(t, msg, c, rid) =>
      SameMaps(s, s');
      CallerDraws(s.eth, s.gen, s.stage, s.calls, Maps(s), t, s'.calls[t]);
    case CallTimeout(t) =>
      SameMaps(s, s');
      CallerReleases(s.eth, s.gen, s.stage, s.calls, Maps(s), t);
    case Reply(_, _, _, _, _, _) => ArrivalOwns(s, step);
    case Notify(_, _, _) => ArrivalOwns(s, step);
    case HandOver(c) => HandOwns(s, c);
    case Reconnect(c, todo) =>
      if s.eth {
        EthMapsFree(s.gen, s.stage, s.calls, Maps(s), Maps(s'));
      } else {
        SameMaps(s, s');
        SameOwner(s, s');
      }
    case _ => SameMaps(s, s'); SameOwner(s, s');
  }

  /** No re-submission fails; over Ethereum there are none. */
  predicate Sound(step: Step) {
    step.Net? ==> !step.net.ResubFail?
  }

  /** Over Ethereum every step keeps the ids owned, over Cosmos every sound one. */
  lemma StepOwns(s: S, step: Step)
    requires OwnS(s) && Enabled(s, step) && (!s.eth ==> Inv(s) && Sound(step))
    ensures OwnS(Apply(s, step))
  {
    match step
    case Add(a) => if a.AddCommit? { CommitAddOwns(s); } else { AddStepOwns(s, a); }
    case Rem(r) => RemStepOwns(s, r);
    case Tear(t) => if t.TearCommit? { CommitTearOwns(s); } else { TearStepOwns(s, t); }
    case Net(n) => NetStepOwns(s, n);
  }

  /** The generator's own test makes every Cosmos id that is drawn fresh. */
  lemma StepIsFresh(s: S, step: Step)
    requires Inv(s) && OwnS(s) && !s.eth && Enabled(s, step)
    ensures Fresh(s, step) && Intact(s, step)
  {
    if step.Add? && step.add.AddSend? {
      UndrawnIsFresh(s, step.add.rid);
    }
  }

  ghost predicate SoundRun(s: S, steps: seq<Step>)
    decreases |steps|
  {
    steps == [] ||
    (SoundRun(s, Front(steps)) && (Enabled(Run(s, Front(steps)), Last(steps)) ==> Sound(Last(steps))))
  }

  lemma {:induction false} RunOwns(eth: bool, n: nat, steps: seq<Step>)
    requires !eth ==> SoundRun(Init(eth, n), steps)
    ensures OwnS(Run(Init(eth, n), steps))
    ensures !eth ==> FreshRun(Init(eth, n), steps) && Inv(Run(Init(eth, n), steps))
    decreases |steps|
  {
    if steps == [] {
      InitHolds(eth, n);
    } else {
      RunOwns(eth, n, Front(steps));
      RunKind(Init(eth, n), Front(steps));
      var s := Run(Init(eth, n), Front(steps));
      if Enabled(s, Last(steps)) {
        StepOwns(s, Last(steps));
        if !eth {
          StepIsFresh(s, Last(steps));
          StepKeeps(s, Last(steps));
        }
      }
    }
  }
}
