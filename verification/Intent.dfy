/** The table is what the clients asked for, in the words of their own requests. */
module Intent {
  import opened Messages
  import opened Subscriptions
  import opened Machine
  import opened Frames
  import opened Leaks
  import opened Registry

  /** The client whose subscribe or unsubscribe_all the holder of the mutex performs. */
  function StageClient(stage: Stage): Option<Client> {
    match stage
    case AddCall(client, _, _) => Some(client)
    case AddSent(client, _, _, _, _, _) => Some(client)
    case AddGot(client, _, _, _, _, _) => Some(client)
    case AddAck(client, _, _, _, _) => Some(client)
    case AddPooled(client, _, _, _) => Some(client)
    case AddJoin(client, _, _, _) => Some(client)
    case AllLoop(client, _) => Some(client)
    case AllCheck(client, _, _) => Some(client)
    case TearCall(_, More(client, _)) => Some(client)
    case TearSent(_, _, _, _, _, More(client, _)) => Some(client)
    case TearGot(_, _, _, _, More(client, _)) => Some(client)
    case TearAck(_, More(client, _)) => Some(client)
    case TearPooled(_, More(client, _)) => Some(client)
    case _ => None
  }

  ghost predicate Busy(s: S, client: Client) {
    StageClient(s.stage) == Some(client) || exists t :: t in s.rems && s.rems[t].client == client
  }

  /** One client's requests, its disconnect included, are served one after another. */
  ghost predicate Orderly(s: S, step: Step) {
    match step
    case Add(AddEnter(client, _, _)) => !Busy(s, client)
    case Rem(RemFind(_, client, _)) => !Busy(s, client)
    case Rem(AllEnter(client, _)) => !Busy(s, client)
    case _ => true
  }

  function Following(sm: Table, client: Client, p: Param): Option<Follow> {
    if p in sm.paramToId && sm.Has(sm.paramToId[p], client)
    then Some(Follow(sm.clients[sm.paramToId[p]][client], sm.paramToId[p])) else None
  }

  /** The table is the relation that the clients' effective requests build. */
  ghost predicate Faithful(sm: Table, log: seq<Event>) {
    forall client, p :: Follows(log, client, p) == Following(sm, client, p)
  }

  /** A remover is about to drop what its client named, and once it has looked the pair stays. */
  ghost predicate RemOk(sm: Table, r: Rem) {
    && (r.target.ById? ==> r.target.sid == r.sid)
    && (r.Checked? ==> sm.Has(r.sid, r.client))
    && (!r.Dropped? && r.target.ByQuery? && sm.Has(r.sid, r.client) ==>
          r.sid in sm.idToParam && sm.idToParam[r.sid] == r.target.q)
  }

  ghost predicate RemsOk(sm: Table, rems: map<Tid, Rem>) {
    forall t :: t in rems ==> RemOk(sm, rems[t])
  }

  /** A client has one operation under way. */
  ghost predicate Apart(rems: map<Tid, Rem>, stage: Stage) {
    && (forall t :: t in rems ==> StageClient(stage) != Some(rems[t].client))
    && (forall t, u :: t in rems && u in rems && rems[t].client == rems[u].client ==> t == u)
  }

  /** The loop that removes all of a client's subscriptions has the rest of them before it. */
  ghost predicate LoopOk(sm: Table, stage: Stage) {
    match stage
    case AllLoop(client, ids) => Within(sm, client, ids)
    case AllCheck(client, _, ids) => Within(sm, client, ids)
    case TearCall(_, More(client, ids)) => Within(sm, client, ids)
    case TearSent(_, _, _, _, _, More(client, ids)) => Within(sm, client, ids)
    case TearGot(_, _, _, _, More(client, ids)) => Within(sm, client, ids)
    case TearAck(_, More(client, ids)) => Within(sm, client, ids)
    case TearPooled(_, More(client, ids)) => Within(sm, client, ids)
    case _ => true
  }

  ghost predicate Within(sm: Table, client: Client, ids: seq<Id>) {
    forall x :: sm.Has(x, client) ==> x in ids
  }

  ghost predicate Will(s: S) {
    Faithful(s.sm, s.log) && RemsOk(s.sm, s.rems) && Apart(s.rems, s.stage) && LoopOk(s.sm, s.stage)
  }

  // ----- the history

  lemma JoinLog(sm: Table, log: seq<Event>, sid: Id, client: Client, param: Param, cid: MsgId)
    requires sm.Valid() && Faithful(sm, log) && sid in sm.idToParam && sm.idToParam[sid] == param
    ensures Faithful(sm.Join(sid, client, cid), log + [Joined(client, param, cid, sid)])
  {
    forall cl, p
      ensures Follows(log + [Joined(client, param, cid, sid)], cl, p) == Following(sm.Join(sid, client, cid), cl, p)
    {
      assert Front(log + [Joined(client, param, cid, sid)]) == log;
      assert Follows(log, cl, p) == Following(sm, cl, p);
    }
  }

  /** A client is dropped from `sid`, which it named by id or by query. */
  lemma LeaveLog(sm: Table, log: seq<Event>, sid: Id, client: Client, target: Target)
    requires sm.Valid() && Faithful(sm, log) && sm.Has(sid, client)
    requires target == ById(sid) || target == ByQuery(sm.idToParam[sid])
    ensures Faithful(sm.Leave(sid, client), log + [Left(client, target)])
  {
    forall cl, p
      ensures Follows(log + [Left(client, target)], cl, p) == Following(sm.Leave(sid, client), cl, p)
    {
      assert Front(log + [Left(client, target)]) == log;
      assert Follows(log, cl, p) == Following(sm, cl, p);
    }
  }

  lemma UnfollowWill(s: S, sid: Id, client: Client, target: Target)
    requires s.sm.Valid() && Faithful(s.sm, s.log) && RemsOk(s.sm, s.rems)
    requires s.sm.Has(sid, client) ==> target == ById(sid) || target == ByQuery(s.sm.idToParam[sid])
    ensures
      var s' := Unfollow(s, sid, client, target);
      && Faithful(s'.sm, s'.log)
      && (forall t :: t in s.rems && s.rems[t].client != client ==> RemOk(s'.sm, s.rems[t]))
      && (forall x, cl :: s'.sm.Has(x, cl) <==> s.sm.Has(x, cl) && !(x == sid && cl == client))
  {
    var s' := Unfollow(s, sid, client, target);
    if s.sm.Has(sid, client) {
      LeaveLog(s.sm, s.log, sid, client, target);
    } else {
      assert forall cl, p :: Following(s'.sm, cl, p) == Following(s.sm, cl, p);
    }
    forall t | t in s.rems && s.rems[t].client != client
      ensures RemOk(s'.sm, s.rems[t])
    {
      assert RemOk(s.sm, s.rems[t]);
    }
  }

  // ----- every step

  lemma SameWill(s: S, s': S)
    requires Will(s) && s'.sm == s.sm && s'.log == s.log && s'.rems == s.rems
    requires StageClient(s'.stage) == StageClient(s.stage) || StageClient(s'.stage) == None
    requires LoopOk(s.sm, s'.stage)
    ensures Will(s')
  {
  }

  lemma RegisterWill(s: S)
    requires Reg(s) && Will(s) && s.stage.AddPooled?
    ensures Will(RegisterAdd(s))
  {
    var s' := RegisterAdd(s);
    assert forall cl, p :: Following(s'.sm, cl, p) == Following(s.sm, cl, p);
    forall t | t in s.rems
      ensures RemOk(s'.sm, s.rems[t])
    {
      assert RemOk(s.sm, s.rems[t]);
    }
  }

  lemma FinishAddWill(s: S)
    requires Reg(s) && Will(s) && s.stage.AddJoin?
    ensures s.stage.sid in s.sm.clients && Will(FinishAdd(s))
  {
    var s' := FinishAdd(s);
    JoinLog(s.sm, s.log, s.stage.sid, s.stage.client, s.stage.param, s.stage.cid);
    forall t | t in s.rems
      ensures RemOk(s'.sm, s.rems[t])
    {
      assert RemOk(s.sm, s.rems[t]);
    }
  }

  lemma AddStages(s: S, step: AddStep)
    requires EnabledAdd(s, step) && !step.AddEnter? && !step.AddRegister? && !step.AddDone?
    ensures
      var s' := ApplyAdd(s, step);
      && s'.sm == s.sm && s'.log == s.log && s'.rems == s.rems
      && (StageClient(s'.stage) == StageClient(s.stage) || StageClient(s'.stage) == None)
      && LoopOk(s.sm, s'.stage)
  {
  }

  lemma AddWill(s: S, step: AddStep)
    requires Reg(s) && Will(s) && EnabledAdd(s, step) && Orderly(s, Add(step))
    ensures Will(ApplyAdd(s, step))
  {
    var s' := ApplyAdd(s, step);
    match step
    case AddEnter(_, _, _) =>
    case AddRegister => RegisterWill(s);
    case AddDone => FinishAddWill(s);
    case _ => AddStages(s, step); SameWill(s, s');
  }

  lemma FindWill(s: S, t: Tid, client: Client, param: Param)
    requires Reg(s) && Will(s) && EnabledRem(s, RemFind(t, client, param)) && !Busy(s, client)
    ensures Will(ApplyRem(s, RemFind(t, client, param)))
  {
    var s' := ApplyRem(s, RemFind(t, client, param));
    assert RemOk(s.sm, s'.rems[t]);
  }

  lemma DropWill(s: S, t: Tid)
    requires Reg(s) && Will(s) && t in s.rems && s.rems[t].Checked?
    ensures Will(DropRem(s, t))
  {
    var r := s.rems[t];
    assert RemOk(s.sm, r);
    UnfollowWill(s, r.sid, r.client, r.target);
  }

  lemma DropAllWill(s: S)
    requires Reg(s) && Will(s) && s.stage.AllLoop? && s.stage.ids != []
    ensures Will(DropAll(s))
  {
    var s' := DropAll(s);
    var ids := s.stage.ids;
    UnfollowWill(s, ids[0], s.stage.client, ById(ids[0]));
    assert ids == [ids[0]] + ids[1..];
  }

  lemma RemWill(s: S, step: RemStep)
    requires Reg(s) && Will(s) && EnabledRem(s, step) && Orderly(s, Rem(step))
    ensures Will(ApplyRem(s, step))
  {
    match step
    case RemFind(t, client, param) => FindWill(s, t, client, param);
    case RemDrop(t) => DropWill(s, t);
    case AllDrop => DropAllWill(s);
    case RemCheck(t) => CheckWill(s, t);
    case RemEnter(t) => EnterWill(s, t);
    case _ => LoopWill(s, step);
  }

  lemma CheckWill(s: S, t: Tid)
    requires Will(s) && t in s.rems && s.rems[t].Found?
    ensures Will(CheckRem(s, t))
  {
    assert RemOk(s.sm, s.rems[t]);
  }

  lemma EnterWill(s: S, t: Tid)
    requires Will(s) && t in s.rems && s.rems[t].Dropped? && s.stage.Free?
    ensures Will(EnterRem(s, t))
  {
  }

  /** The loop over a client's subscriptions begins, goes on or ends. */
  lemma LoopWill(s: S, step: RemStep)
    requires Will(s) && EnabledRem(s, step) && Orderly(s, Rem(step))
    requires step.AllEnter? || step.AllTest? || step.AllExit?
    ensures Will(ApplyRem(s, step))
  {
  }

  lemma RemovedWill(sm: Table, log: seq<Event>, rems: map<Tid, Rem>, x: Id)
    requires sm.Valid() && Faithful(sm, log) && RemsOk(sm, rems) && x in sm.idToParam && sm.Empty(x)
    ensures Faithful(sm.Remove(x), log) && RemsOk(sm.Remove(x), rems)
    ensures forall y, cl :: sm.Remove(x).Has(y, cl) == sm.Has(y, cl)
  {
    assert forall cl, p :: Following(sm.Remove(x), cl, p) == Following(sm, cl, p);
    forall t | t in rems
      ensures RemOk(sm.Remove(x), rems[t])
    {
      assert RemOk(sm, rems[t]);
    }
  }

  lemma FinishTearWill(s: S)
    requires Reg(s) && Tidy(s) && Will(s) && s.stage.TearPooled?
    ensures Will(FinishTear(s))
  {
    RemovedWill(s.sm, s.log, s.rems, s.stage.sid);
  }

  lemma TearStages(s: S, step: TearStep)
    requires EnabledTear(s, step) && !step.TearDone?
    ensures
      var s' := ApplyTear(s, step);
      && s'.sm == s.sm && s'.log == s.log && s'.rems == s.rems
      && (StageClient(s'.stage) == StageClient(s.stage) || StageClient(s'.stage) == None)
      && (LoopOk(s.sm, s.stage) ==> LoopOk(s.sm, s'.stage))
  {
  }

  lemma TearWill(s: S, step: TearStep)
    requires Reg(s) && Tidy(s) && Will(s) && EnabledTear(s, step)
    ensures Will(ApplyTear(s, step))
  {
    if step.TearDone? {
      FinishTearWill(s);
    } else {
      TearStages(s, step);
      SameWill(s, ApplyTear(s, step));
    }
  }

  lemma NetWill(s: S, step: NetStep)
    requires Will(s) && EnabledNet(s, step)
    ensures Will(ApplyNet(s, step))
  {
    NetChanges(s, step);
    if step.HandOver? {
      HandChanges(s, step.c);
    }
    SameWill(s, ApplyNet(s, step));
  }

  lemma StepWill(s: S, step: Step)
    requires Reg(s) && Tidy(s) && Will(s) && Enabled(s, step) && Orderly(s, step)
    ensures Will(Apply(s, step))
  {
    match step
    case Add(a) => AddWill(s, a);
    case Rem(r) => RemWill(s, r);
    case Tear(t) => TearWill(s, t);
    case Net(n) => NetWill(s, n);
  }

  /** A run in which each client's requests are served one after another. */
  ghost predicate OrderlyRun(s: S, steps: seq<Step>)
    decreases |steps|
  {
    steps == [] ||
    (OrderlyRun(s, Front(steps)) &&
     (Enabled(Run(s, Front(steps)), Last(steps)) ==> Orderly(Run(s, Front(steps)), Last(steps))))
  }

  lemma {:induction false} RunWill(eth: bool, n: nat, steps: seq<Step>)
    requires FreshRun(Init(eth, n), steps) && OrderlyRun(Init(eth, n), steps)
    ensures Will(Run(Init(eth, n), steps))
    decreases |steps|
  {
    if steps != [] {
      RunWill(eth, n, Front(steps));
      InitReg(eth, n);
      RunReg(Init(eth, n), Front(steps));
      RunTidy(Init(eth, n), Front(steps));
      var s := Run(Init(eth, n), Front(steps));
      if Enabled(s, Last(steps)) {
        StepWill(s, Last(steps));
      }
    }
  }
}
