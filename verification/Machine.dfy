/** The broker and its upstream connections as a machine whose steps interleave freely.

    The goroutine that holds `upstreamSubMux` is at most one; its program counter is `stage`.
    Goroutines that are removing a subscription but do not hold the mutex are in `rems`, goroutines
    that wait for the reply to an ordinary request are in `calls`.  Every step is one access to
    shared state as the code makes it; a reader looks up the channel for a reply in one step and hands
    the reply over in another, and handing over includes the deletion of the entry.  The node behind a
    connection answers what it owes in any order, or never, and sends notifications for the subscriptions
    it has accepted. */
module Machine {
  import opened Messages
  import opened Subscriptions
  import opened Layers

  type Tid = int

  /** What a request on the wire asks of the node. */
  datatype Call =
    | Sub(param: Param)
    | Unsub(param: Param, sid: Id)
    | Ask(msg: Msg)

  /** Which goroutine made a channel that is stored in a connection's table of waiting requests. */
  datatype Waiter = Holder | Caller(t: Tid) | Reader

  /** A channel: who made it, and its number among the channels of the connection. */
  datatype Chan = Chan(w: Waiter, k: nat)

  /** What the goroutine that reads a connection is doing.  `Handing` has looked a message's channel up
      and blocks until somebody receives from it; it notices only afterwards that the connection is lost.
      `Resub` and `Resent` are the loop that re-submits subscriptions, before and after sending the first
      of `todo`; it runs on the same goroutine. */
  datatype Mode =
    | Reading
    | Handing(ch: Chan, x: Id, answered: Option<Call>, body: Msg, sid: Id, lost: bool)
    | Down
    | Resub(todo: seq<(Id, Param)>)
    | Resent(todo: seq<(Id, Param)>)
  {
    /** The reader takes messages, or will once it has handed the one it holds over. */
    predicate Up() {
      Reading? || (Handing? && !lost)
    }

    /** The connection is lost, and nobody has dialed again. */
    predicate Cut() {
      Down? || (Handing? && lost)
    }

    /** The connection drops. */
    function Dropped(): Mode {
      if Reading? then Down else if Handing? then this.(lost := true) else this
    }

    /** The message in hand has been received. */
    function Rested(): Mode
      requires Handing?
    {
      if lost then Down else Reading
    }
  }

  /** One upstream connection; `made` counts its channels.  `owed` and `subs` belong to the node:
      requests it has received and not answered, and subscriptions under which it may notify. */
  datatype Conn = Conn(maps: SubMaps, resp: map<Id, Chan>, made: nat, mode: Mode,
                       owed: set<(Id, Call)>, subs: map<Id, Param>)
  {
    function Store(x: Id, w: Waiter): Conn {
      this.(resp := resp[x := Chan(w, made)], made := made + 1)
    }

    function Send(x: Id, w: Waiter, call: Call): Conn {
      Store(x, w).(owed := if mode.Cut() then owed else owed + {(x, call)})
    }

    /** The write fails after the channel has been stored; only the Ethereum manager can also fail before. */
    function SendFails(x: Id, w: Waiter, stored: bool): Conn {
      if stored then Store(x, w) else this
    }

    function Settle(x: Id): Conn {
      this.(resp := resp - {x})
    }

    /** The node answers `call`; `obeyed` says whether it did what was asked, or refused. */
    function Answer(eth: bool, x: Id, call: Call, sid: Id, obeyed: bool): Conn {
      var rest := this.(owed := owed - {(x, call)});
      match call
      case Sub(p) => if obeyed then rest.(subs := subs[(if eth then sid else x) := p]) else rest
      case Unsub(p, y) =>
        if !obeyed then rest
        else if eth then rest.(subs := subs - {y})
        else rest.(subs := map z | z in subs && subs[z] != p :: subs[z])
      case Ask(_) => rest
    }

    function Lose(): Conn {
      this.(owed := {}, subs := map[])
    }
  }

  datatype Then = Finish | More(client: Client, rest: seq<Id>)

  /** Program counter of the goroutine that holds the mutex. */
  datatype Stage =
    | Free
    | AddCall(client: Client, param: Param, cid: MsgId)
    | AddSent(client: Client, param: Param, cid: MsgId, c: int, rid: Id, k: nat)
    | AddGot(client: Client, param: Param, cid: MsgId, c: int, rid: Id, sid: Id)
    | AddAck(client: Client, param: Param, cid: MsgId, c: int, sid: Id)
    | AddPooled(client: Client, param: Param, cid: MsgId, sid: Id)
    | AddJoin(client: Client, param: Param, cid: MsgId, sid: Id)
    | AllLoop(client: Client, ids: seq<Id>)
    | AllCheck(client: Client, sid: Id, ids: seq<Id>)
    | TearCall(sid: Id, next: Then)
    | TearSent(sid: Id, param: Param, c: int, rid: Id, k: nat, next: Then)
    | TearGot(sid: Id, param: Param, c: int, rid: Id, next: Then)
    | TearAck(sid: Id, next: Then)
    | TearPooled(sid: Id, next: Then)

  /** What a client asks to leave: a query, or the subscription that it was told as `sid`. */
  datatype Target = ByQuery(q: Param) | ById(sid: Id)

  /** A removal outside the mutex: the id is resolved, the client was seen, the client is dropped. */
  datatype Rem =
    | Found(client: Client, target: Target, sid: Id)
    | Checked(client: Client, target: Target, sid: Id)
    | Dropped(client: Client, target: Target, sid: Id)

  /** A request in flight, with the number of its channel. */
  datatype Flight = Flight(c: int, rid: Id, k: nat, msg: Msg)

  /** History: effective subscriptions and unsubscriptions, in the words of the client's requests. */
  datatype Event = Joined(client: Client, param: Param, cid: MsgId, sid: Id) | Left(client: Client, target: Target)

  /** History: a reply handed to the caller that sent `msg`; `answered` is what the node answered. */
  datatype Returned = Returned(msg: Msg, answered: Option<Call>, reply: Msg)

  /** History: one broadcast, with the message each client gets. */
  datatype Broadcast = Broadcast(sid: Id, sends: map<Client, Msg>)

  datatype S = S(
    eth: bool,
    sm: Table,
    pool: PoolMaps,
    conns: seq<Conn>,
    gen: set<Id>,
    stage: Stage,
    rems: map<Tid, Rem>,
    calls: map<Tid, Flight>,
    failed: set<Id>,
    log: seq<Event>,
    returned: seq<Returned>,
    sent: seq<Broadcast>)

  /** Steps of addSubscription, under the mutex. */
  datatype AddStep =
    | AddEnter(client: Client, param: Param, cid: MsgId)
    | AddPoolHit
    | AddExists(c: int)
    | AddSend(c: int, rid: Id)
    | AddSendFail(c: int, rid: Id, stored: bool)
    | AddTimeout
    | AddCommit
    | AddPool
    | AddRegister
    | AddDone

  /** Steps of removeSubscription up to the test for emptiness, and the loop of removeAllSubscriptions. */
  datatype RemStep =
    | RemFind(t: Tid, client: Client, param: Param)
    | RemCheck(t: Tid)
    | RemDrop(t: Tid)
    | RemEnter(t: Tid)
    | AllEnter(client: Client, ids: seq<Id>)
    | AllDrop
    | AllTest
    | AllExit

  /** Steps of the upstream unsubscribe, under the mutex. */
  datatype TearStep =
    | TearMissing
    | TearSend(rid: Id)
    | TearSendFail(rid: Id, stored: bool)
    | TearTimeout
    | TearCommit
    | TearPool
    | TearDone

  /** Steps of ordinary requests, the node and the network. */
  datatype NetStep =
    | CallSend(t: Tid, msg: Msg, c: int, rid: Id)
    | CallSendFail(t: Tid, c: int, rid: Id, stored: bool)
    | CallTimeout(t: Tid)
    | Reply(c: int, x: Id, call: Call, body: Msg, sid: Id, obeyed: bool)
    | Notify(c: int, x: Id, body: Msg)
    | HandOver(c: int)
    | Drop(c: int)
    | Reconnect(c: int, todo: seq<(Id, Param)>)
    | ResubFind(c: int, x: Id, p: Param)
    | ResubSkip(c: int)
    | ResubSend(c: int)
    | ResubFail(c: int)

  datatype Step = Add(add: AddStep) | Rem(rem: RemStep) | Tear(tear: TearStep) | Net(net: NetStep)

  function Init(eth: bool, n: nat): S {
    S(eth, EmptyTable, EmptyPool, seq(n, _ => Conn(NoSubs, map[], 0, Reading, {}, map[])),
      {}, Free, map[], map[], {}, [], [], [])
  }

  predicate IsEthSubscriptionID(p: Name) {
    "0x" <= p.text
  }

  /** The id that an unsubscribe request names. */
  function Resolve(sm: Table, p: Param): Option<Id> {
    if IsEthSubscriptionID(p) then Some(p)
    else if p in sm.paramToId then Some(sm.paramToId[p])
    else None
  }

  function TargetOf(p: Param): Target {
    if IsEthSubscriptionID(p) then ById(p) else ByQuery(p)
  }

  predicate IsConn(s: S, c: int) {
    0 <= c < |s.conns|
  }

  ghost predicate ListsPairs(maps: SubMaps, todo: seq<(Id, Param)>) {
    && (forall p :: p in maps.byParam ==> (maps.byParam[p], p) in todo)
    && (forall e :: e in todo ==> e.1 in maps.byParam && maps.byParam[e.1] == e.0)
  }

  /** A connection's request can be drawn an id exactly when the generator does not hold it. */
  predicate CanDraw(s: S, c: int, rid: Id) {
    IsConn(s, c) && rid !in s.gen
  }

  /** What the goroutine that made channel `ch` for id `x` of connection `c` waits for, if it still waits. */
  function Asks(stage: Stage, calls: map<Tid, Flight>, c: int, ch: Chan, x: Id): Option<Call> {
    match ch.w
    case Holder =>
      if stage.AddSent? && stage.c == c && stage.rid == x && stage.k == ch.k then Some(Sub(stage.param))
      else if stage.TearSent? && stage.c == c && stage.rid == x && stage.k == ch.k then
        Some(Unsub(stage.param, stage.sid))
      else None
    case Caller(t) =>
      if t in calls && calls[t].c == c && calls[t].rid == x && calls[t].k == ch.k then Some(Ask(calls[t].msg)) else None
    case Reader => None
  }

  predicate CanHandOver(s: S, c: int) {
    && IsConn(s, c) && s.conns[c].mode.Handing?
    && Asks(s.stage, s.calls, c, s.conns[c].mode.ch, s.conns[c].mode.x).Some?
  }

  predicate CanSubscribe(s: S, c: int) {
    && s.stage.AddCall?
    && s.stage.param !in s.pool.id
    && IsConn(s, c)
    && s.stage.param !in s.conns[c].maps.byParam
  }

  predicate CanTear(s: S) {
    s.stage.TearCall? && s.stage.sid in s.pool.conn && IsConn(s, s.pool.conn[s.stage.sid])
  }

  ghost predicate EnabledAdd(s: S, step: AddStep)
  {
    match step
    case AddEnter(_, _, _) => s.stage.Free?
    case AddPoolHit => s.stage.AddCall? && s.stage.param in s.pool.id
    case AddExists(c) =>
      && s.stage.AddCall? && s.stage.param !in s.pool.id
      && IsConn(s, c) && s.stage.param in s.conns[c].maps.byParam
    case AddSend(c, rid) => CanSubscribe(s, c) && CanDraw(s, c, rid)
    case AddSendFail(c, rid, stored) => CanSubscribe(s, c) && CanDraw(s, c, rid) && (s.eth || stored)
    case AddTimeout => s.stage.AddSent? && IsConn(s, s.stage.c)
    case AddCommit => s.stage.AddGot? && IsConn(s, s.stage.c)
    case AddPool => s.stage.AddAck?
    case AddRegister => s.stage.AddPooled?
    case AddDone => s.stage.AddJoin? && s.stage.sid in s.sm.clients
  }

  ghost predicate EnabledRem(s: S, step: RemStep)
  {
    match step
    case RemFind(t, client, param) => t !in s.rems && Resolve(s.sm, param).Some?
    case RemCheck(t) => t in s.rems && s.rems[t].Found?
    case RemDrop(t) => t in s.rems && s.rems[t].Checked?
    case RemEnter(t) => t in s.rems && s.rems[t].Dropped? && s.stage.Free?
    case AllEnter(client, ids) => s.stage.Free? && s.sm.Lists(client, ids)
    case AllDrop => s.stage.AllLoop? && s.stage.ids != []
    case AllTest => s.stage.AllCheck?
    case AllExit => s.stage.AllLoop? && s.stage.ids == []
  }

  ghost predicate EnabledTear(s: S, step: TearStep)
  {
    match step
    case TearMissing => s.stage.TearCall? && s.stage.sid !in s.pool.conn
    case TearSend(rid) => CanTear(s) && rid !in s.gen
    case TearSendFail(rid, stored) => CanTear(s) && rid !in s.gen && (s.eth || stored)
    case TearTimeout => s.stage.TearSent? && IsConn(s, s.stage.c)
    case TearCommit => s.stage.TearGot? && IsConn(s, s.stage.c)
    case TearPool => s.stage.TearAck?
    case TearDone => s.stage.TearPooled?
  }

  ghost predicate EnabledNet(s: S, step: NetStep)
  {
    match step
    case CallSend(t, msg, c, rid) => t !in s.calls && CanDraw(s, c, rid)
    case CallSendFail(t, c, rid, stored) => t !in s.calls && CanDraw(s, c, rid) && (s.eth || stored)
    case CallTimeout(t) => t in s.calls && IsConn(s, s.calls[t].c)
    case Reply(c, x, call, _, _, _) => IsConn(s, c) && s.conns[c].mode.Reading? && (x, call) in s.conns[c].owed
    case Notify(c, x, _) => IsConn(s, c) && s.conns[c].mode.Reading? && x in s.conns[c].subs
    case HandOver(c) => CanHandOver(s, c)
    case Drop(c) => IsConn(s, c)
    case Reconnect(c, todo) => IsConn(s, c) && s.conns[c].mode.Down? && ListsPairs(s.conns[c].maps, todo)
    case ResubFind(c, x, p) =>
      && !s.eth && IsConn(s, c) && s.conns[c].mode.Resub?
      && StillListed(s.conns[c].maps, (x, p)) && (x, p) !in s.conns[c].mode.todo
    case ResubSkip(c) =>
      && !s.eth && IsConn(s, c) && s.conns[c].mode.Resub?
      && (s.conns[c].mode.todo == [] || !StillListed(s.conns[c].maps, s.conns[c].mode.todo[0]))
    case ResubSend(c) =>
      && !s.eth && IsConn(s, c) && s.conns[c].mode.Resub?
      && s.conns[c].mode.todo != [] && StillListed(s.conns[c].maps, s.conns[c].mode.todo[0])
    case ResubFail(c) =>
      && !s.eth && IsConn(s, c) && (s.conns[c].mode.Resub? || s.conns[c].mode.Resent?)
      && s.conns[c].mode.todo != []
      && (s.conns[c].mode.Resub? ==> StillListed(s.conns[c].maps, s.conns[c].mode.todo[0]))
  }

  ghost predicate Enabled(s: S, step: Step)
  {
    match step
    case Add(a) => EnabledAdd(s, a)
    case Rem(a) => EnabledRem(s, a)
    case Tear(a) => EnabledTear(s, a)
    case Net(a) => EnabledNet(s, a)
  }

  predicate StillListed(maps: SubMaps, e: (Id, Param)) {
    e.1 in maps.byParam && maps.byParam[e.1] == e.0
  }

  function At(s: S, c: int, conn: Conn): S
    requires IsConn(s, c)
  {
    s.(conns := s.conns[c := conn])
  }

  function Resume(next: Then): Stage {
    match next
    case Finish => Free
    case More(client, rest) => AllLoop(client, rest)
  }

  /** An upstream unsubscribe failed: the broker returns the error and releases the mutex. */
  function GiveUp(s: S, sid: Id): S {
    s.(stage := Free, failed := if sid in s.sm.idToParam then s.failed + {sid} else s.failed)
  }

  /** The client's entry is deleted from the table, whether or not it was there. */
  function Unfollow(s: S, sid: Id, client: Client, target: Target): S {
    s.(sm := s.sm.Leave(sid, client),
       log := if s.sm.Has(sid, client) then s.log + [Left(client, target)] else s.log)
  }

  /** The reader looks up the channel for a message with id `x`. */
  function PickUp(s: S, c: int, x: Id, answered: Option<Call>, body: Msg, sid: Id): S
    requires IsConn(s, c) && x in s.conns[c].resp
  {
    At(s, c, s.conns[c].(mode := Handing(s.conns[c].resp[x], x, answered, body, sid, false)))
  }

  /** The goroutine that waits receives the message and deletes the entry. */
  function Hand(s: S, c: int): S
    requires CanHandOver(s, c)
  {
    var m := s.conns[c].mode;
    var settled := At(s, c, s.conns[c].Settle(m.x).(mode := m.Rested()));
    match m.ch.w
    case Holder =>
      if s.stage.AddSent?
      then settled.(stage := AddGot(s.stage.client, s.stage.param, s.stage.cid, c, m.x, if s.eth then m.sid else m.x))
      else settled.(stage := TearGot(s.stage.sid, s.stage.param, c, m.x, s.stage.next))
    case Caller(t) =>
      settled.(
      calls := s.calls - {t},
      gen := s.gen - {m.x},
      returned := s.returned + [Returned(s.calls[t].msg, m.answered, m.body.CloneWithID(s.calls[t].msg.id))])
  }

  /** A message under subscription `x` goes to the clients registered now, each with its own id. */
  function Spread(s: S, x: Id, body: Msg): S {
    var clients := s.sm.ClientsOf(x);
    s.(sent := s.sent + [Broadcast(x, map client | client in clients :: body.CloneWithID(clients[client]))])
  }

  /** The reader of connection `c` gets a message with id `x`. */
  function Receive(s: S, c: int, x: Id, answered: Option<Call>, body: Msg, sid: Id): S
    requires IsConn(s, c)
  {
    if s.eth then
      if answered.Some? then
        if x in s.conns[c].resp then PickUp(s, c, x, answered, body, sid) else s
      else if x in s.conns[c].maps.byId then Spread(s, x, body) else s
    else if x in s.conns[c].resp then PickUp(s, c, x, answered, body, sid)
    else if x in s.conns[c].maps.byId then Spread(s, x, body)
    else s
  }

  function EnterAdd(s: S, client: Client, param: Param, cid: MsgId): S {
    if param in s.sm.paramToId then s.(stage := AddJoin(client, param, cid, s.sm.paramToId[param]))
    else s.(stage := AddCall(client, param, cid))
  }

  function SendAdd(s: S, c: int, rid: Id): S
    requires s.stage.AddCall? && IsConn(s, c)
  {
    At(s, c, s.conns[c].Send(rid, Holder, Sub(s.stage.param))).(
    gen := s.gen + {rid},
    stage := AddSent(s.stage.client, s.stage.param, s.stage.cid, c, rid, s.conns[c].made))
  }

  function TimeOutAdd(s: S): S
    requires s.stage.AddSent? && IsConn(s, s.stage.c)
  {
    At(s, s.stage.c, s.conns[s.stage.c].Settle(s.stage.rid)).(gen := s.gen - {s.stage.rid}, stage := Free)
  }

  function CommitAdd(s: S): S
    requires s.stage.AddGot? && IsConn(s, s.stage.c)
  {
    var g := s.stage;
    At(s, g.c, s.conns[g.c].(maps := s.conns[g.c].maps.Register(g.param, g.sid))).(
    gen := if s.eth then s.gen - {g.rid} else s.gen,
    stage := AddAck(g.client, g.param, g.cid, g.c, g.sid))
  }

  function PoolAdd(s: S): S
    requires s.stage.AddAck?
  {
    s.(pool := s.pool.Add(s.stage.param, s.stage.sid, s.stage.c),
       stage := AddPooled(s.stage.client, s.stage.param, s.stage.cid, s.stage.sid))
  }

  function RegisterAdd(s: S): S
    requires s.stage.AddPooled?
  {
    s.(sm := s.sm.Add(s.stage.param, s.stage.sid),
       stage := AddJoin(s.stage.client, s.stage.param, s.stage.cid, s.stage.sid))
  }

  function FinishAdd(s: S): S
    requires s.stage.AddJoin? && s.stage.sid in s.sm.clients
  {
    s.(sm := s.sm.Join(s.stage.sid, s.stage.client, s.stage.cid),
       log := s.log + [Joined(s.stage.client, s.stage.param, s.stage.cid, s.stage.sid)],
       stage := Free)
  }

  function CheckRem(s: S, t: Tid): S
    requires t in s.rems && s.rems[t].Found?
  {
    var r := s.rems[t];
    if s.sm.Has(r.sid, r.client) then s.(rems := s.rems[t := Checked(r.client, r.target, r.sid)])
    else s.(rems := s.rems - {t})
  }

  function DropRem(s: S, t: Tid): S
    requires t in s.rems && s.rems[t].Checked?
  {
    var r := s.rems[t];
    Unfollow(s, r.sid, r.client, r.target).(rems := s.rems[t := Dropped(r.client, r.target, r.sid)])
  }

  function EnterRem(s: S, t: Tid): S
    requires t in s.rems && s.rems[t].Dropped?
  {
    s.(rems := s.rems - {t},
       stage := if s.sm.Empty(s.rems[t].sid) then TearCall(s.rems[t].sid, Finish) else Free)
  }

  function DropAll(s: S): S
    requires s.stage.AllLoop? && s.stage.ids != []
  {
    Unfollow(s, s.stage.ids[0], s.stage.client, ById(s.stage.ids[0])).(
    stage := AllCheck(s.stage.client, s.stage.ids[0], s.stage.ids[1..]))
  }

  function TestAll(s: S): S
    requires s.stage.AllCheck?
  {
    s.(stage := if s.sm.Empty(s.stage.sid) then TearCall(s.stage.sid, More(s.stage.client, s.stage.ids))
                else AllLoop(s.stage.client, s.stage.ids))
  }

  function SendTear(s: S, rid: Id): S
    requires CanTear(s)
  {
    var sid := s.stage.sid;
    var c := s.pool.conn[sid];
    var param := s.conns[c].maps.ParamOf(sid);
    At(s, c, s.conns[c].Send(rid, Holder, Unsub(param, sid))).(
    gen := s.gen + {rid},
    stage := TearSent(sid, param, c, rid, s.conns[c].made, s.stage.next))
  }

  function FailTear(s: S, rid: Id, stored: bool): S
    requires CanTear(s)
  {
    var c := s.pool.conn[s.stage.sid];
    GiveUp(At(s, c, s.conns[c].SendFails(rid, Holder, stored)), s.stage.sid)
  }

  function TimeOutTear(s: S): S
    requires s.stage.TearSent? && IsConn(s, s.stage.c)
  {
    GiveUp(At(s, s.stage.c, s.conns[s.stage.c].Settle(s.stage.rid)).(gen := s.gen - {s.stage.rid}), s.stage.sid)
  }

  /** The Cosmos manager uses the query it read before the request, the Ethereum manager reads it now. */
  function CommitTear(s: S): S
    requires s.stage.TearGot? && IsConn(s, s.stage.c)
  {
    var g := s.stage;
    var maps := s.conns[g.c].maps;
    At(s, g.c, s.conns[g.c].(maps := maps.Forget(if s.eth then maps.ParamOf(g.sid) else g.param, g.sid))).(
    gen := if s.eth then s.gen - {g.rid} else s.gen - {g.rid, g.sid},
    stage := TearAck(g.sid, g.next))
  }

  function PoolTear(s: S): S
    requires s.stage.TearAck?
  {
    s.(pool := s.pool.Remove(s.stage.sid), stage := TearPooled(s.stage.sid, s.stage.next))
  }

  function FinishTear(s: S): S
    requires s.stage.TearPooled?
  {
    s.(sm := s.sm.Remove(s.stage.sid), failed := s.failed - {s.stage.sid}, stage := Resume(s.stage.next))
  }

  function SendCall(s: S, t: Tid, msg: Msg, c: int, rid: Id): S
    requires IsConn(s, c)
  {
    At(s, c, s.conns[c].Send(rid, Caller(t), Ask(msg))).(
    gen := s.gen + {rid},
    calls := s.calls[t := Flight(c, rid, s.conns[c].made, msg)])
  }

  function TimeOutCall(s: S, t: Tid): S
    requires t in s.calls && IsConn(s, s.calls[t].c)
  {
    var f := s.calls[t];
    At(s, f.c, s.conns[f.c].Settle(f.rid)).(gen := s.gen - {f.rid}, calls := s.calls - {t})
  }

  function Answered(s: S, c: int, x: Id, call: Call, sid: Id, obeyed: bool): S
    requires IsConn(s, c)
  {
    At(s, c, s.conns[c].Answer(s.eth, x, call, sid, obeyed))
  }

  function Lost(s: S, c: int): S
    requires IsConn(s, c)
  {
    At(s, c, s.conns[c].Lose().(mode := s.conns[c].mode.Dropped()))
  }

  function Reconnected(s: S, c: int, todo: seq<(Id, Param)>): S
    requires IsConn(s, c)
  {
    if s.eth then At(s, c, s.conns[c].(maps := NoSubs, resp := map[], mode := Reading))
    else At(s, c, s.conns[c].(mode := Resub(todo)))
  }

  /** The loop may come upon an entry that was added after it began, or never. */
  function FindResub(s: S, c: int, x: Id, p: Param): S
    requires IsConn(s, c) && s.conns[c].mode.Resub?
  {
    At(s, c, s.conns[c].(mode := Resub([(x, p)] + s.conns[c].mode.todo)))
  }

  function SkipResub(s: S, c: int): S
    requires IsConn(s, c) && s.conns[c].mode.Resub?
  {
    var todo := s.conns[c].mode.todo;
    At(s, c, s.conns[c].(mode := if todo == [] then Reading else Resub(todo[1..])))
  }

  function SendResub(s: S, c: int): S
    requires IsConn(s, c) && s.conns[c].mode.Resub? && s.conns[c].mode.todo != []
  {
    var todo := s.conns[c].mode.todo;
    At(s, c, s.conns[c].Send(todo[0].0, Reader, Sub(todo[0].1)).(mode := Resent(todo)))
  }

  function FailResub(s: S, c: int): S
    requires IsConn(s, c) && (s.conns[c].mode.Resub? || s.conns[c].mode.Resent?) && s.conns[c].mode.todo != []
  {
    var x := s.conns[c].mode.todo[0].0;
    var failing := if s.conns[c].mode.Resub? then s.conns[c].SendFails(x, Reader, true) else s.conns[c].Settle(x);
    At(s, c, failing.Lose().(mode := Down)).(gen := s.gen - {x})
  }

  ghost function ApplyAdd(s: S, step: AddStep): S
    requires EnabledAdd(s, step)
  {
    match step
    case AddEnter(client, param, cid) => EnterAdd(s, client, param, cid)
    case AddPoolHit =>
      s.(stage := AddPooled(s.stage.client, s.stage.param, s.stage.cid, s.pool.id[s.stage.param]))
    case AddExists(c) => s.(stage := Free)
    case AddSend(c, rid) => SendAdd(s, c, rid)
    case AddSendFail(c, rid, stored) => At(s, c, s.conns[c].SendFails(rid, Holder, stored)).(stage := Free)
    case AddTimeout => TimeOutAdd(s)
    case AddCommit => CommitAdd(s)
    case AddPool => PoolAdd(s)
    case AddRegister => RegisterAdd(s)
    case AddDone => FinishAdd(s)
  }

  ghost function ApplyRem(s: S, step: RemStep): S
    requires EnabledRem(s, step)
  {
    match step
    case RemFind(t, client, param) =>
      s.(rems := s.rems[t := Found(client, TargetOf(param), Resolve(s.sm, param).value)])
    case RemCheck(t) => CheckRem(s, t)
    case RemDrop(t) => DropRem(s, t)
    case RemEnter(t) => EnterRem(s, t)
    case AllEnter(client, ids) => s.(stage := AllLoop(client, ids))
    case AllDrop => DropAll(s)
    case AllTest => TestAll(s)
    case AllExit => s.(stage := Free)
  }

  ghost function ApplyTear(s: S, step: TearStep): S
    requires EnabledTear(s, step)
  {
    match step
    case TearMissing => GiveUp(s, s.stage.sid)
    case TearSend(rid) => SendTear(s, rid)
    case TearSendFail(rid, stored) => FailTear(s, rid, stored)
    case TearTimeout => TimeOutTear(s)
    case TearCommit => CommitTear(s)
    case TearPool => PoolTear(s)
    case TearDone => FinishTear(s)
  }

  ghost function ApplyNet(s: S, step: NetStep): S
    requires EnabledNet(s, step)
  {
    match step
    case CallSend(t, msg, c, rid) => SendCall(s, t, msg, c, rid)
    case CallSendFail(t, c, rid, stored) => At(s, c, s.conns[c].SendFails(rid, Caller(t), stored))
    case CallTimeout(t) => TimeOutCall(s, t)
    case Reply(c, x, call, body, sid, obeyed) =>
      Receive(Answered(s, c, x, call, sid, obeyed), c, x, Some(call), body, sid)
    case Notify(c, x, body) => Receive(s, c, x, None, body, x)
    case HandOver(c) => Hand(s, c)
    case Drop(c) => Lost(s, c)
    case Reconnect(c, todo) => Reconnected(s, c, todo)
    case ResubFind(c, x, p) => FindResub(s, c, x, p)
    case ResubSkip(c) => SkipResub(s, c)
    case ResubSend(c) => SendResub(s, c)
    case ResubFail(c) => FailResub(s, c)
  }

  ghost function Apply(s: S, step: Step): S
    requires Enabled(s, step)
  {
    match step
    case Add(a) => ApplyAdd(s, a)
    case Rem(a) => ApplyRem(s, a)
    case Tear(a) => ApplyTear(s, a)
    case Net(a) => ApplyNet(s, a)
  }

  predicate IsResub(step: NetStep) {
    step.ResubFind? || step.ResubSkip? || step.ResubSend? || step.ResubFail?
  }

  /** A step of a schedule that is not enabled where it comes does nothing. */
  ghost function Next(s: S, step: Step): S {
    if Enabled(s, step) then Apply(s, step) else s
  }

  /** Any finite sequence of steps is a schedule of goroutines, node and network. */
  ghost function Run(s: S, steps: seq<Step>): S
    decreases |steps|
  {
    if steps == [] then s else Next(Run(s, Front(steps)), Last(steps))
  }

  /** One more step of a run. */
  lemma Chain(s0: S, steps: seq<Step>, s: S, step: Step, s': S)
    requires Run(s0, steps) == s && Enabled(s, step) && Apply(s, step) == s'
    ensures Run(s0, steps + [step]) == s'
  {
  }

  lemma {:induction false} RunConcat(s: S, first: seq<Step>, second: seq<Step>)
    ensures Run(s, first + second) == Run(Run(s, first), second)
    decreases |second|
  {
    if second == [] {
      assert first + second == first;
    } else {
      RunConcat(s, first, Front(second));
      assert Front(first + second) == first + Front(second);
      assert Last(first + second) == Last(second);
    }
  }

  function Front<T>(xs: seq<T>): seq<T>
    requires xs != []
  {
    xs[..|xs| - 1]
  }

  function Last<T>(xs: seq<T>): T
    requires xs != []
  {
    xs[|xs| - 1]
  }

  /** How a client follows a query: the id of its request, and the subscription it was told. */
  datatype Follow = Follow(cid: MsgId, sid: Id)

  predicate Hits(target: Target, param: Param, sid: Id) {
    match target
    case ByQuery(q) => q == param
    case ById(y) => y == sid
  }

  /** What the client's effective requests say: its last subscribe to `param` that no later request left. */
  function Follows(log: seq<Event>, client: Client, param: Param): Option<Follow>
    decreases |log|
  {
    if log == [] then None
    else
      var before := Follows(Front(log), client, param);
      match Last(log)
      case Joined(cl, p, cid, sid) => if cl == client && p == param then Some(Follow(cid, sid)) else before
      case Left(cl, target) =>
        if cl == client && before.Some? && Hits(target, param, before.value.sid) then None else before
  }

  /** The id of that subscribe request. */
  function Latest(log: seq<Event>, client: Client, param: Param): Option<MsgId> {
    var f := Follows(log, client, param);
    if f.Some? then Some(f.value.cid) else None
  }
}
