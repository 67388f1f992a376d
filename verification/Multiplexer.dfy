/** What the interleaved broker guarantees, over every schedule from its start. */
module Multiplexer {
  import opened Messages
  import opened Subscriptions
  import opened Machine
  import opened Frames
  import opened Leaks
  import opened Registry
  import opened Requests
  import opened Agreement
  import opened Ownership
  import opened Answers
  import opened Wire
  import opened Notices
  import opened Intent
  import opened Wedges

  /** The state after a schedule. */
  ghost function After(eth: bool, n: nat, steps: seq<Step>): S {
    Run(Init(eth, n), steps)
  }

  ghost predicate FreshSchedule(eth: bool, n: nat, steps: seq<Step>) {
    FreshRun(Init(eth, n), steps)
  }

  ghost predicate IntactSchedule(eth: bool, n: nat, steps: seq<Step>) {
    IntactRun(Init(eth, n), steps)
  }

  ghost predicate SoundSchedule(eth: bool, n: nat, steps: seq<Step>) {
    SoundRun(Init(eth, n), steps)
  }

  ghost predicate QuietSchedule(eth: bool, n: nat, steps: seq<Step>) {
    QuietRun(Init(eth, n), steps)
  }

  ghost predicate DistinctSchedule(eth: bool, n: nat, steps: seq<Step>) {
    DistinctRun(Init(eth, n), steps)
  }

  ghost predicate OrderlySchedule(eth: bool, n: nat, steps: seq<Step>) {
    OrderlyRun(Init(eth, n), steps)
  }

  // ----- agreement of the layers

  lemma AfterReg(eth: bool, n: nat, steps: seq<Step>)
    requires FreshSchedule(eth, n, steps)
    ensures Reg(After(eth, n, steps))
  {
    InitReg(eth, n);
    RunReg(Init(eth, n), steps);
  }

  /** Whenever the mutex is free, table, pool and connections hold the same subscriptions, and each
      is in exactly the connection that the pool records. */
  lemma LayersAgree(eth: bool, n: nat, steps: seq<Step>)
    requires FreshSchedule(eth, n, steps) && IntactSchedule(eth, n, steps)
    requires After(eth, n, steps).stage.Free?
    ensures
      var s := After(eth, n, steps);
      && s.sm.Valid()
      && s.pool.param == s.sm.idToParam && s.pool.id == s.sm.paramToId
      && s.pool.conn.Keys == s.sm.clients.Keys
      && (forall c, x :: IsConn(s, c) ==> (x in s.conns[c].maps.byId <==> x in s.pool.conn && s.pool.conn[x] == c))
      && (forall c, x :: IsConn(s, c) && x in s.conns[c].maps.byId ==> s.conns[c].maps.byId[x] == s.sm.idToParam[x])
      && (forall c :: IsConn(s, c) ==> s.conns[c].maps.Valid())
  {
    RunKeeps(eth, n, steps);
    ConnsAtRest(After(eth, n, steps));
    PoolAtRest(After(eth, n, steps));
  }

  lemma ConnsAtRest(s: S)
    requires Inv(s) && s.stage.Free?
    ensures forall c, x :: IsConn(s, c) ==> (x in s.conns[c].maps.byId <==> x in s.pool.conn && s.pool.conn[x] == c)
    ensures forall c :: IsConn(s, c) ==> s.conns[c].maps.Valid()
    ensures forall c, x :: IsConn(s, c) && x in s.conns[c].maps.byId ==> s.conns[c].maps.byId[x] == s.sm.idToParam[x]
  {
    forall c, x | IsConn(s, c)
      ensures x in s.conns[c].maps.byId <==> x in s.pool.conn && s.pool.conn[x] == c
      ensures x in s.conns[c].maps.byId ==> s.conns[c].maps.byId[x] == s.sm.idToParam[x]
    {
      assert x in Maps(s)[c].byId <==> ExpectedConn(s.pool, s.stage, c, x);
    }
    assert forall c :: IsConn(s, c) ==> s.conns[c].maps == Maps(s)[c];
  }

  lemma PoolAtRest(s: S)
    requires s.sm.Valid() && PoolAgrees(s.sm, s.pool, s.stage) && s.stage.Free?
    ensures s.pool.id == s.sm.paramToId
  {
  }

  /** Over Cosmos, without a failed re-submission, the generator's own test is all the freshness that is
      needed. */
  lemma SoundIsFresh(n: nat, steps: seq<Step>)
    requires SoundSchedule(false, n, steps)
    ensures FreshSchedule(false, n, steps) && IntactSchedule(false, n, steps)
  {
    RunOwns(false, n, steps);
    CosmosIsIntact(Init(false, n), steps);
  }

  /** The pool's early return and the connection's refusal are unreachable from the broker. */
  lemma NoSecondUpstreamSubscription(eth: bool, n: nat, steps: seq<Step>, c: int)
    requires FreshSchedule(eth, n, steps)
    ensures !Enabled(After(eth, n, steps), Add(AddPoolHit))
    ensures !Enabled(After(eth, n, steps), Add(AddExists(c)))
  {
    AfterReg(eth, n, steps);
    NeverSubscribedTwice(After(eth, n, steps));
  }

  // ----- clients

  /** At every moment a client follows a query, under an id, exactly when its last effective request
      about that query subscribed with that id; what is recorded as a client's effective request is one that
      this client made. */
  lemma TableIsTheClientsWill(eth: bool, n: nat, steps: seq<Step>, client: Client, param: Param)
    requires FreshSchedule(eth, n, steps) && OrderlySchedule(eth, n, steps)
    ensures After(eth, n, steps).sm.Lookup(client, param) == Latest(After(eth, n, steps).log, client, param)
    ensures forall e :: e in After(eth, n, steps).log ==> Said(Init(eth, n), steps, e)
  {
    RunSaid(eth, n, steps);
    RunWill(eth, n, steps);
    var s := After(eth, n, steps);
    assert Follows(s.log, client, param) == Following(s.sm, client, param);
  }

  /** What a step does to the pair (client, param), by what the client asked for. */
  ghost function PairAfter(s: S, step: Step, client: Client, param: Param): Option<MsgId>
    requires Enabled(s, step)
  {
    match step
    case Add(AddDone) =>
      if client == s.stage.client && param == s.stage.param then Some(s.stage.cid) else s.sm.Lookup(client, param)
    case Rem(RemDrop(t)) =>
      if client == s.rems[t].client && IsNamed(s.sm, s.rems[t].target, param) then None else s.sm.Lookup(client, param)
    case Rem(AllDrop) =>
      if client == s.stage.client && IsNamed(s.sm, ById(s.stage.ids[0]), param) then None
      else s.sm.Lookup(client, param)
    case _ => s.sm.Lookup(client, param)
  }

  predicate IsNamed(sm: Table, target: Target, param: Param) {
    param in sm.paramToId && Hits(target, param, sm.paramToId[param])
  }

  predicate Names(sm: Table, x: Id, param: Param) {
    x in sm.idToParam && sm.idToParam[x] == param
  }

  /** Subscribing sets one pair, each removal takes out the pair that the client named, and no other
      step, successful or failed, changes any pair. */
  lemma StepsRefineTheRelation(eth: bool, n: nat, steps: seq<Step>, step: Step, client: Client, param: Param)
    requires FreshSchedule(eth, n, steps) && OrderlySchedule(eth, n, steps)
    requires Enabled(After(eth, n, steps), step)
    ensures Apply(After(eth, n, steps), step).sm.Lookup(client, param) ==
            PairAfter(After(eth, n, steps), step, client, param)
  {
    AfterReg(eth, n, steps);
    RunTidy(Init(eth, n), steps);
    RunWill(eth, n, steps);
    StepRefines(After(eth, n, steps), step, client, param);
  }

  lemma StepRefines(s: S, step: Step, client: Client, param: Param)
    requires s.sm.Valid() && StageTable(s.eth, s.sm, s.stage) && TearsEmpty(s.sm, s.stage)
    requires RemsOk(s.sm, s.rems) && Enabled(s, step)
    ensures Apply(s, step).sm.Lookup(client, param) == PairAfter(s, step, client, param)
  {
    match step
    case Add(a) => AddRefines(s, a, client, param);
    case Rem(r) => RemRefines(s, r, client, param);
    case Tear(t) => TearRefines(s, t, client, param);
    case Net(n) => NetChanges(s, n);
  }

  lemma AddRefines(s: S, step: AddStep, client: Client, param: Param)
    requires s.sm.Valid() && EnabledAdd(s, step)
    requires s.stage.AddPooled? ==> s.stage.param !in s.sm.paramToId && s.stage.sid !in s.sm.idToParam
    requires s.stage.AddJoin? ==> Names(s.sm, s.stage.sid, s.stage.param)
    ensures ApplyAdd(s, step).sm.Lookup(client, param) == PairAfter(s, Add(step), client, param)
  {
    if !step.AddDone? && !step.AddRegister? {
      assert ApplyAdd(s, step).sm == s.sm;
    }
  }

  lemma RemRefines(s: S, step: RemStep, client: Client, param: Param)
    requires s.sm.Valid() && RemsOk(s.sm, s.rems) && EnabledRem(s, step)
    ensures ApplyRem(s, step).sm.Lookup(client, param) == PairAfter(s, Rem(step), client, param)
  {
    match step
    case RemDrop(t) =>
      assert RemOk(s.sm, s.rems[t]);
      NamedPair(s.sm, s.rems[t].sid, s.rems[t].client, s.rems[t].target, client, param);
    case AllDrop => NamedPair(s.sm, s.stage.ids[0], s.stage.client, ById(s.stage.ids[0]), client, param);
    case _ => assert ApplyRem(s, step).sm == s.sm;
  }

  lemma NamedPair(sm: Table, x: Id, cl: Client, target: Target, client: Client, param: Param)
    requires sm.Valid()
    requires target == ById(x) || (sm.Has(x, cl) && x in sm.idToParam && target == ByQuery(sm.idToParam[x]))
    ensures sm.Leave(x, cl).Lookup(client, param) ==
            if client == cl && IsNamed(sm, target, param) then None else sm.Lookup(client, param)
  {
  }

  lemma TearRefines(s: S, step: TearStep, client: Client, param: Param)
    requires s.sm.Valid() && EnabledTear(s, step)
    requires s.stage.TearPooled? ==> s.sm.Empty(s.stage.sid) && s.stage.sid in s.sm.idToParam
    ensures ApplyTear(s, step).sm.Lookup(client, param) == PairAfter(s, Tear(step), client, param)
  {
    if step.TearDone? {
      RemoveEmptyKeepsRelation(s.sm, s.stage.sid, client, param);
    } else {
      assert ApplyTear(s, step).sm == s.sm;
    }
  }

  /** Until it is acknowledged a subscribe leaves table, pool, connections, removals and history alone,
      whoever runs in between; on failure the mutex is free again and no id but its own has changed. */
  lemma FailedSubscribeUndone(eth: bool, n: nat, steps: seq<Step>, step: AddStep)
    requires Enabled(After(eth, n, steps), Add(step))
    requires step.AddEnter? || step.AddSend? || step.AddSendFail? || step.AddTimeout?
    ensures
      var s := After(eth, n, steps);
      var s' := Apply(s, Add(step));
      && s'.sm == s.sm && s'.pool == s.pool && Maps(s') == Maps(s) && s'.rems == s.rems
      && s'.log == s.log && s'.calls == s.calls
      && (step.AddSendFail? || step.AddTimeout? ==> s'.stage == Free)
      && s'.gen == (if step.AddSend? then s.gen + {step.rid}
                    else if step.AddTimeout? then s.gen - {s.stage.rid} else s.gen)
  {
    SameMaps(After(eth, n, steps), ApplyAdd(After(eth, n, steps), step));
  }

  // ----- unsubscribing upstream

  /** In every schedule the upstream unsubscribe goes out only while nobody follows the subscription, and
      until its entry is gone nobody can join it. */
  lemma UnsubscribedOnlyWhenEmpty(eth: bool, n: nat, steps: seq<Step>)
    requires InTear(After(eth, n, steps).stage)
    ensures After(eth, n, steps).sm.Empty(After(eth, n, steps).stage.sid)
    ensures !Enabled(After(eth, n, steps), Add(AddDone))
  {
    RunTidy(Init(eth, n), steps);
  }

  /** In every schedule a subscription that nobody follows is about to be looked at, or its unsubscribe
      failed. */
  lemma NothingLeaks(eth: bool, n: nat, steps: seq<Step>, x: Id)
    requires After(eth, n, steps).stage.Free?
    requires x in After(eth, n, steps).sm.idToParam && After(eth, n, steps).sm.Empty(x)
    ensures x in After(eth, n, steps).failed || BetweenParts(After(eth, n, steps).rems, x)
  {
    RunTidy(Init(eth, n), steps);
  }

  /** At rest and without failures every upstream subscription has a client. */
  lemma AtRestEverySubscriptionIsFollowed(eth: bool, n: nat, steps: seq<Step>, c: int, x: Id)
    requires FreshSchedule(eth, n, steps)
    requires After(eth, n, steps).stage.Free? && After(eth, n, steps).failed == {}
    requires After(eth, n, steps).rems == map[]
    requires IsConn(After(eth, n, steps), c) && x in After(eth, n, steps).conns[c].maps.byId
    ensures x in After(eth, n, steps).sm.clients && After(eth, n, steps).sm.clients[x] != map[]
  {
    AfterReg(eth, n, steps);
    var s := After(eth, n, steps);
    assert Recorded(s.pool, s.stage, c, x, Maps(s)[c].byId[x]);
    if s.sm.Empty(x) {
      NothingLeaks(eth, n, steps, x);
    }
  }

  /** When unsubscribe_all, or a disconnect, has come to its end without failure the client follows nothing. */
  lemma UnsubscribeAllLeavesNothing(eth: bool, n: nat, steps: seq<Step>, param: Param)
    requires FreshSchedule(eth, n, steps) && OrderlySchedule(eth, n, steps)
    requires Enabled(After(eth, n, steps), Rem(AllExit))
    ensures
      var s := After(eth, n, steps);
      s.sm.Lookup(s.stage.client, param) == None && Latest(s.log, s.stage.client, param) == None
  {
    RunWill(eth, n, steps);
    TableIsTheClientsWill(eth, n, steps, After(eth, n, steps).stage.client, param);
  }

  // ----- ids

  predicate HeldBy(s: S, c: int, x: Id) {
    IsConn(s, c) && x in s.conns[c].maps.byId
  }

  /** The generator holds exactly the ids of requests in flight and, for Cosmos, of subscriptions, and
      each has one owner: over Ethereum in every schedule, over Cosmos while no re-submission fails.  A
      subscription is on one connection at most. */
  lemma GeneratedIdsAreOwned(eth: bool, n: nat, steps: seq<Step>, x: Id)
    requires !eth ==> SoundSchedule(eth, n, steps)
    ensures
      var s := After(eth, n, steps);
      && (x in s.gen <==> HolderRid(s.stage) == Some(x) || InFlight(s.calls, x) || (!eth && Held(Maps(s), x)))
      && !(HolderRid(s.stage) == Some(x) && InFlight(s.calls, x))
      && (!eth && Held(Maps(s), x) ==> HolderRid(s.stage) != Some(x) && !InFlight(s.calls, x))
      && (forall t, u :: t in s.calls && u in s.calls && s.calls[t].rid == s.calls[u].rid ==> t == u)
    ensures
      !eth || FreshSchedule(eth, n, steps) ==>
        forall c, d :: HeldBy(After(eth, n, steps), c, x) && HeldBy(After(eth, n, steps), d, x) ==> c == d
  {
    RunOwns(eth, n, steps);
    RunKind(Init(eth, n), steps);
    if !eth || FreshSchedule(eth, n, steps) {
      AfterReg(eth, n, steps);
      OnOneConn(After(eth, n, steps), x);
    }
  }

  // ----- the wire

  /** Every reply that a caller got is the message that the node sent in answer to that caller's request,
      under the caller's id. */
  lemma RepliesAreTheCallersOwn(eth: bool, n: nat, steps: seq<Step>, r: Returned)
    requires QuietSchedule(eth, n, steps)
    requires r in After(eth, n, steps).returned
    ensures r.answered == Some(Ask(r.msg)) && r.reply.id == r.msg.id
    ensures exists i :: 0 <= i < |steps| && IsReplyTo(eth, n, steps, i, r)
  {
    RunWire(eth, n, steps);
    RunAnswered(eth, n, steps);
    assert ReplyAnswered(Init(eth, n), steps, r);
    var body :| Brought(Init(eth, n), steps, Ask(r.msg), body) && r.reply == body.(id := r.msg.id);
    var i :| 0 <= i < |steps| && BroughtAt(Init(eth, n), steps, i, Ask(r.msg), body);
    assert IsReplyTo(eth, n, steps, i, r);
  }

  /** Step number `i` is the node's answer to the request of `r`, and its message is what `r` returned. */
  ghost predicate IsReplyTo(eth: bool, n: nat, steps: seq<Step>, i: nat, r: Returned)
    requires i < |steps|
  {
    && Enabled(After(eth, n, steps[..i]), steps[i])
    && steps[i].Net? && steps[i].net.Reply? && steps[i].net.call == Ask(r.msg)
    && r.reply == steps[i].net.body.(id := r.msg.id)
  }

  /** In a quiet schedule a reader is blocked for ever exactly when a goroutine timed out after the
      reader had looked its channel up, and before it handed the reply over. */
  lemma ReaderIsWedgedIff(eth: bool, n: nat, steps: seq<Step>, c: int)
    requires QuietSchedule(eth, n, steps) && 0 <= c < n
    ensures Wedged(After(eth, n, steps), c) <==> exists i :: 0 <= i < |steps| && TimesOutInHand(eth, n, steps, i, c)
  {
    RunWedges(eth, n, steps, c);
    RunNumbers(eth, n, steps);
    forall i | 0 <= i < |steps|
      ensures WedgesAt(eth, n, steps, i, c) == TimesOutInHand(eth, n, steps, i, c)
    {
      QuietPrefix(Init(eth, n), steps, i);
      RunWire(eth, n, steps[..i]);
      RunNumbers(eth, n, steps[..i]);
      if Enabled(After(eth, n, steps[..i]), steps[i]) {
        NothingComesForTheLeftBehind(After(eth, n, steps[..i]), steps[i], c);
      }
    }
  }

  /** Step number `i` is the timeout of the goroutine to which the reader of `c` is handing a message. */
  ghost predicate TimesOutInHand(eth: bool, n: nat, steps: seq<Step>, i: nat, c: int)
    requires i < |steps|
  {
    Enabled(After(eth, n, steps[..i]), steps[i]) && LeavesInHand(After(eth, n, steps[..i]), steps[i], c)
  }

  lemma {:induction false} QuietPrefix(s: S, steps: seq<Step>, i: nat)
    requires QuietRun(s, steps) && i <= |steps|
    ensures QuietRun(s, steps[..i])
    decreases |steps|
  {
    if i == |steps| {
      assert steps[..i] == steps;
    } else {
      QuietPrefix(s, Front(steps), i);
      assert Front(steps)[..i] == steps[..i];
    }
  }

  /** A reader that is blocked stays blocked: it reads nothing more, whatever happens. */
  lemma WedgedForever(eth: bool, n: nat, steps: seq<Step>, more: seq<Step>, c: int)
    requires Wedged(After(eth, n, steps), c)
    ensures Wedged(Run(After(eth, n, steps), more), c)
    ensures forall step: NetStep :: IsArrival(step) && step.c == c ==>
              !Enabled(Run(After(eth, n, steps), more), Net(step))
  {
    RunNumbers(eth, n, steps);
    WedgedStays(After(eth, n, steps), more, c);
  }

  /** One request whose timer fires at the wrong moment is enough, over Cosmos and over Ethereum. */
  lemma OneTimeoutCanWedge(eth: bool, x: Id, msg: Msg, body: Msg)
    ensures
      var steps := [Net(CallSend(1, msg, 0, x))] + [Net(Reply(0, x, Ask(msg), body, x, true))] + [Net(CallTimeout(1))];
      QuietSchedule(eth, 1, steps) && Wedged(After(eth, 1, steps), 0)
  {
    var s := Init(eth, 1);
    var first := Net(CallSend(1, msg, 0, x));
    Chain(s, [], s, first, SendCall(s, 1, msg, 0, x));
    QuietSnoc(s, [], first);
    assert [] + [first] == [first];
    TimeoutRun(SendCall(s, 1, msg, 0, x), s, [first], x, msg, body);
  }

  lemma TimeoutRun(s: S, s0: S, steps: seq<Step>, x: Id, msg: Msg, body: Msg)
    requires Run(s0, steps) == s && QuietRun(s0, steps) && IsConn(s, 0)
    requires s.conns[0].mode.Reading? && (x, Ask(msg)) in s.conns[0].owed
    requires 1 in s.calls && s.calls[1].c == 0 && s.calls[1].rid == x && s.calls[1].msg == msg
    requires x in s.conns[0].resp && s.conns[0].resp[x] == Chan(Caller(1), s.calls[1].k)
    ensures
      var all := steps + [Net(Reply(0, x, Ask(msg), body, x, true))] + [Net(CallTimeout(1))];
      QuietRun(s0, all) && Wedged(Run(s0, all), 0)
  {
    var b, d := Net(Reply(0, x, Ask(msg), body, x, true)), Net(CallTimeout(1));
    var s2 := PickUp(Answered(s, 0, x, Ask(msg), x, true), 0, x, Some(Ask(msg)), body, x);
    Chain(s0, steps, s, b, s2);
    QuietSnoc(s0, steps, b);
    Chain(s0, steps + [b], s2, d, TimeOutCall(s2, 1));
    QuietSnoc(s0, steps + [b], d);
  }

  /** A notification of the node for query `p` under a registered id makes one send to each client
      whose last effective request about `p` was a subscribe, under that client's id, and no other. */
  lemma NotificationsReachTheFollowers(eth: bool, n: nat, steps: seq<Step>, c: int, x: Id, body: Msg)
    requires FreshSchedule(eth, n, steps) && QuietSchedule(eth, n, steps)
    requires DistinctSchedule(eth, n, steps) && OrderlySchedule(eth, n, steps)
    requires Enabled(After(eth, n, steps), Net(Notify(c, x, body)))
    requires x in After(eth, n, steps).conns[c].maps.byId
    ensures
      var s := After(eth, n, steps);
      var s' := Apply(s, Net(Notify(c, x, body)));
      && |s'.sent| == |s.sent| + 1 && s'.sent[..|s.sent|] == s.sent && Last(s'.sent).sid == x
      && (forall client :: client in Last(s'.sent).sends <==> Latest(s.log, client, s.conns[c].subs[x]).Some?)
      && (forall client :: client in Last(s'.sent).sends ==>
            Last(s'.sent).sends[client] == body.(id := Latest(s.log, client, s.conns[c].subs[x]).value))
  {
    RunWire(eth, n, steps);
    RunNotices(eth, n, steps, false);
    AfterReg(eth, n, steps);
    RunWill(eth, n, steps);
    var s := After(eth, n, steps);
    assert SubsOk(s.eth, false, s.conns[c], c, s.stage, s.calls);
    NotifyWire(s, c, x, body);
    FollowersOf(s, c, x);
  }

  /** The clients recorded under `x` are those that follow the query of `x`; before the table has
      `x` and after it has dropped it, that is nobody. */
  lemma FollowersOf(s: S, c: int, x: Id)
    requires Reg(s) && Faithful(s.sm, s.log) && IsConn(s, c) && x in s.conns[c].maps.byId
    ensures
      var p := s.conns[c].maps.byId[x];
      forall client ::
        && (client in s.sm.ClientsOf(x) <==> Latest(s.log, client, p).Some?)
        && (client in s.sm.ClientsOf(x) ==> Latest(s.log, client, p).value == s.sm.ClientsOf(x)[client])
  {
    HeldQuery(s, c, x);
    FollowersIn(s.sm, s.log, x, s.conns[c].maps.byId[x]);
  }

  /** What a connection holds is in the table, or its query and its id are both new to it. */
  lemma HeldQuery(s: S, c: int, x: Id)
    requires Reg(s) && IsConn(s, c) && x in s.conns[c].maps.byId
    ensures
      var p := s.conns[c].maps.byId[x];
      Names(s.sm, x, p) || (x !in s.sm.idToParam && p !in s.sm.paramToId)
  {
    assert Maps(s)[c].byId[x] == s.conns[c].maps.byId[x];
    assert Recorded(s.pool, s.stage, c, x, Maps(s)[c].byId[x]);
  }

  lemma FollowersIn(sm: Table, log: seq<Event>, x: Id, p: Param)
    requires sm.Valid() && Faithful(sm, log) && (Names(sm, x, p) || (x !in sm.idToParam && p !in sm.paramToId))
    ensures forall client ::
              && (client in sm.ClientsOf(x) <==> Latest(log, client, p).Some?)
              && (client in sm.ClientsOf(x) ==> Latest(log, client, p).value == sm.ClientsOf(x)[client])
  {
    forall client
      ensures Follows(log, client, p) == Following(sm, client, p)
    {
    }
  }

  /** A notification under the id of a registered subscription. */
  predicate IsNotice(s: S, step: Step) {
    match step
    case Net(Notify(c, x, _)) => IsConn(s, c) && x in s.conns[c].maps.byId
    case _ => false
  }

  /** A reply for which nobody waits any more, under the id of a registered Cosmos subscription. */
  predicate IsLateReply(s: S, step: Step) {
    match step
    case Net(Reply(c, x, _, _, _, _)) =>
      !s.eth && IsConn(s, c) && x !in s.conns[c].resp && x in s.conns[c].maps.byId
    case _ => false
  }

  /** In a quiet schedule a step sends something to subscribers exactly when it brings a notification
      under a registered id, or a late reply under one: the Cosmos manager cannot tell them apart. */
  lemma BroadcastIff(eth: bool, n: nat, steps: seq<Step>, step: Step)
    requires QuietSchedule(eth, n, steps)
    requires Enabled(After(eth, n, steps), step)
    ensures
      var s := After(eth, n, steps);
      && (Apply(s, step).sent != s.sent <==> IsNotice(s, step) || IsLateReply(s, step))
      && (IsNotice(s, step) || IsLateReply(s, step) ==>
            var clients := s.sm.ClientsOf(step.net.x);
            Apply(s, step).sent ==
            s.sent + [Broadcast(step.net.x,
                                map client | client in clients :: step.net.body.(id := clients[client]))])
  {
    RunWire(eth, n, steps);
    var s := After(eth, n, steps);
    match step
    case Add(a) => assert ApplyAdd(s, a).sent == s.sent;
    case Rem(r) => assert ApplyRem(s, r).sent == s.sent;
    case Tear(t) => assert ApplyTear(s, t).sent == s.sent;
    case Net(m) =>
      NetBroadcastsIff(s, m);
      if IsNotice(s, step) || IsLateReply(s, step) {
        SpreadSends(s, m.x, m.body);
      }
  }

  lemma SpreadSends(s: S, x: Id, body: Msg)
    ensures
      var clients := s.sm.ClientsOf(x);
      Spread(s, x, body).sent ==
      s.sent + [Broadcast(x, map client | client in clients :: body.(id := clients[client]))]
  {
    var clients := s.sm.ClientsOf(x);
    assert (map client | client in clients :: body.CloneWithID(clients[client])) ==
           (map client | client in clients :: body.(id := clients[client]));
  }

  lemma NetBroadcastsIff(s: S, step: NetStep)
    requires WireOk(s) && EnabledNet(s, step)
    ensures
      ApplyNet(s, step).sent ==
      if IsNotice(s, Net(step)) || IsLateReply(s, Net(step)) then Spread(s, step.x, step.body).sent else s.sent
  {
    match step
    case Notify(c, x, body) => NotifyWire(s, c, x, body);
    case Reply(_, _, _, _, _, _) =>
    case _ => OthersBroadcastNothing(s, step);
  }

  lemma OthersBroadcastNothing(s: S, step: NetStep)
    requires EnabledNet(s, step) && !step.Reply? && !step.Notify?
    ensures ApplyNet(s, step).sent == s.sent
  {
  }

  /** Over Ethereum, and over Cosmos while ids are owned, no late reply comes under a registered id:
      without a registered id a notification goes nowhere, and a reply is never broadcast. */
  lemma NothingElseIsBroadcast(eth: bool, n: nat, steps: seq<Step>, step: Step)
    requires QuietSchedule(eth, n, steps) && (!eth ==> SoundSchedule(eth, n, steps))
    requires Enabled(After(eth, n, steps), step)
    requires step.Net? && step.net.Notify? ==> step.net.x !in After(eth, n, steps).conns[step.net.c].maps.byId
    ensures Apply(After(eth, n, steps), step).sent == After(eth, n, steps).sent
  {
    BroadcastIff(eth, n, steps, step);
    RunKind(Init(eth, n), steps);
    if !eth {
      CosmosIsDistinct(n, steps);
      RunOwns(eth, n, steps);
      RunNotices(eth, n, steps, true);
      NoLateReply(After(eth, n, steps), step);
    }
  }

  lemma NoLateReply(s: S, step: Step)
    requires NoticesOk(s, true) && Enabled(s, step)
    ensures !IsLateReply(s, step)
  {
    match step
    case Net(Reply(c, _, _, _, _, _)) => assert SubsOk(s.eth, true, s.conns[c], c, s.stage, s.calls);
    case _ =>
  }

  lemma {:induction false} CosmosIsDistinct(n: nat, steps: seq<Step>)
    ensures DistinctSchedule(false, n, steps)
    decreases |steps|
  {
    if steps != [] {
      CosmosIsDistinct(n, Front(steps));
      RunKind(Init(false, n), Front(steps));
    }
  }
}
