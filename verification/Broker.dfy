/** The broker call by call, over a pool of Cosmos or of Ethereum connections: each call against the
    abstract relation between clients and queries, whatever the network does during it. */
module Broker {
  import opened Messages
  import opened Subscriptions
  import opened Layers
  import opened Ids
  import opened Upstream
  import opened Pool
  import opened Machine
  import opened Registry
  import opened Agreement

  /** Taking the first of no positional parameters panics. */
  predicate HasParam(req: Msg) {
    req.params.VList? ==> req.params.items != []
  }

  /** The query that a message names: the member `query` of a parameter object, or the first parameter. */
  ghost function QueryOf(req: Msg): Option<Param>
    requires HasParam(req)
  {
    match req.params
    case VMap(fields) =>
      if "query" in fields && fields["query"].VStr? then Some(Name(fields["query"].s)) else None
    case VList(items) => if items[0].VStr? then Some(Name(items[0].s)) else None
    case _ => None
  }

  function GetSubscriptionParam(req: Msg): (r: Result<Param>)
    requires HasParam(req)
    ensures r.Ok? <==> QueryOf(req).Some?
    ensures r.Ok? ==> QueryOf(req) == Some(r.value)
  {
    if req.params.VMap? && "query" in req.params.fields && req.params.fields["query"].VStr? then
      Ok(Name(req.params.fields["query"].s))
    else if req.params.VList? then
      (if req.params.items[0].VStr? then Ok(Name(req.params.items[0].s))
       else Err("bad query format (should be string)"))
    else Err("bad params for subscribe")
  }

  /** The layers agree and no critical section is under way. */
  ghost predicate AtRest(sm: Table, pool: PoolMaps, maps: seq<SubMaps>) {
    sm.Valid() && PoolAgrees(sm, pool, Free) && ConnsAgree(pool, maps, Free)
  }

  ghost predicate HeldIdsLive(held: map<Id, Param>, live: set<string>) {
    forall x :: x in held ==> x.text in live
  }

  /** An unsubscribe request names the client's subscription to `q` exactly when `q` does not look
      like an Ethereum id, or happens to be the id itself. */
  lemma ResolveFindsIff(sm: Table, q: Param)
    requires sm.Valid() && q in sm.paramToId
    ensures Resolve(sm, q) == Some(sm.paramToId[q]) <==> !IsEthSubscriptionID(q) || sm.paramToId[q] == q
  {
  }

  /** A new subscription put into every layer. */
  lemma AddedAtRest(sm: Table, pool: PoolMaps, maps: seq<SubMaps>, p: Param, x: Id, c: int)
    requires AtRest(sm, pool, maps) && 0 <= c < |maps|
    requires p !in sm.paramToId && x !in sm.idToParam
    ensures AtRest(sm.Add(p, x), pool.Add(p, x, c), maps[c := maps[c].Register(p, x)])
  {
    var got := AddGot(0, p, NoId, c, x, x);
    var ack := AddAck(0, p, NoId, c, x);
    var pooled := AddPooled(0, p, NoId, x);
    var maps' := maps[c := maps[c].Register(p, x)];
    UnknownAtRest(sm, pool, maps, p);
    LevelConns(pool, maps, Free, got);
    RegisterIncluded(pool, maps, got, ack);
    RegisterComplete(pool, maps, got, ack);
    PoolAddIncluded(pool, maps', ack, pooled);
    PoolAddComplete(pool, maps', ack, pooled);
    PoolAddAgrees(sm, pool, ack, pooled);
    LevelConns(pool.Add(p, x, c), maps', pooled, Free);
    AddValidIff(sm, p, x);
  }

  /** A subscription taken out of every layer. */
  lemma RemovedAtRest(sm: Table, pool: PoolMaps, maps: seq<SubMaps>, x: Id)
    requires AtRest(sm, pool, maps) && x in pool.conn
    ensures 0 <= pool.conn[x] < |maps| && x in sm.idToParam
    ensures
      var c := pool.conn[x];
      AtRest(sm.Remove(x), pool.Remove(x), maps[c := maps[c].Forget(maps[c].ParamOf(x), x)])
  {
    var c := pool.conn[x];
    assert ExpectedConn(pool, Free, c, x);
    var p := maps[c].byId[x];
    var got := TearGot(x, p, c, x, Finish);
    var ack := TearAck(x, Finish);
    var pooled := TearPooled(x, Finish);
    var maps' := maps[c := maps[c].Forget(p, x)];
    LevelConns(pool, maps, Free, got);
    ForgetIncluded(pool, maps, got, ack, p);
    ForgetComplete(pool, maps, got, ack);
    PoolTearIncluded(pool, maps', ack, pooled);
    PoolTearComplete(pool, maps', ack, pooled);
    LevelConns(pool.Remove(x), maps', pooled, Free);
    RemoveValidIff(sm, x);
  }

  lemma KnownToPool(sm: Table, pool: PoolMaps, maps: seq<SubMaps>, x: Id)
    requires AtRest(sm, pool, maps)
    ensures x in pool.conn <==> x in sm.idToParam
    ensures x in pool.conn ==> 0 <= pool.conn[x] < |maps|
  {
  }

  lemma IdsLeft(sm: Table, live: set<string>, x: Id)
    ensures HeldIdsLive(sm.idToParam, live) && (forall y :: y in sm.idToParam ==> y.text != x.text || y == x) ==>
              HeldIdsLive(sm.Remove(x).idToParam, live - {x.text})
    ensures |live - {x.text}| <= |live|
  {
    SubsetIsSmaller(live - {x.text}, live);
  }

  /** Clients come and go without moving a subscription. */
  lemma ClientsAtRest(sm: Table, sm': Table, pool: PoolMaps, maps: seq<SubMaps>)
    requires AtRest(sm, pool, maps)
    requires sm'.idToParam == sm.idToParam && sm'.paramToId == sm.paramToId && sm'.clients.Keys == sm.clients.Keys
    ensures AtRest(sm', pool, maps)
  {
  }

  lemma UnknownAtRest(sm: Table, pool: PoolMaps, maps: seq<SubMaps>, p: Param)
    requires AtRest(sm, pool, maps) && p !in sm.paramToId
    ensures p !in pool.id && (forall c :: 0 <= c < |maps| ==> p !in maps[c].byParam)
  {
  }

  /** The relation once `client` has been dropped from the subscriptions `ids`. */
  function Without(sm: Table, client: Client, ids: seq<Id>, cl: Client, p: Param): Option<MsgId> {
    if cl == client && p in sm.paramToId && sm.paramToId[p] in ids then None else sm.Lookup(cl, p)
  }

  /** The pair (client, q) is in the relation under `cid`, every other pair is as before. */
  ghost predicate PairSet(before: Table, after: Table, client: Client, q: Param, cid: MsgId) {
    forall cl, p :: after.Lookup(cl, p) == (if cl == client && p == q then Some(cid) else before.Lookup(cl, p))
  }

  /** A subscribe to `q` succeeds exactly when the query is registered or the node replies; then the pair
      is set, and the client is told the query's subscription. */
  ghost predicate PairAdded(before: Table, after: Table, client: Client, q: Param, cid: MsgId, net: Net, r: Result<Id>)
  {
    && (r.Ok? <==> q in before.paramToId || net.Replies?)
    && (r.Ok? ==>
          && PairSet(before, after, client, q, cid)
          && q in after.paramToId && r.value == after.paramToId[q])
  }

  /** What an unsubscribe that names `text` does.  One that looks like an Ethereum id is the id of the
      subscription that the client leaves, any other is a query. */
  ghost predicate PairTakenOut(before: Table, after: Table, client: Client, text: string, r: Result<()>) {
    if |text| >= 2 && text[0] == '0' && text[1] == 'x' then
      if before.Has(Name(text), client) then
        forall cl, p :: after.Lookup(cl, p) ==
          if cl == client && p in before.paramToId && before.paramToId[p] == Name(text) then None
          else before.Lookup(cl, p)
      else r.Err? && after == before
    else
      if before.Lookup(client, Name(text)).Some? then
        forall cl, p :: after.Lookup(cl, p) == if cl == client && p == Name(text) then None else before.Lookup(cl, p)
      else r.Err? && after == before
  }

  /** The client leaves the subscription that the message names, which goes when nobody is left and the
      upstream unsubscribe succeeds.  When there is no such subscription nothing changes. */
  ghost predicate Removed(before: Table, after: Table, client: Client, msg: Msg, over: Net, r: Result<()>)
    requires HasParam(msg)
  {
    if Followed(before, client, msg) then
      var x := Resolve(before, QueryOf(msg).value).value;
      && PairsDropped(before, after, client, [x])
      && (r.Ok? <==> !Tears(before, client, msg) || over.Replies?)
      && (r.Err? <==> x in after.idToParam && after.Empty(x))
      && (r.Ok? ==> (x in after.idToParam <==> !Tears(before, client, msg)))
    else r.Err? && after == before
  }

  /** The client has left the subscriptions `ids`, every other pair is as before. */
  ghost predicate PairsDropped(before: Table, after: Table, client: Client, ids: seq<Id>) {
    forall cl, p :: after.Lookup(cl, p) == Without(before, client, ids, cl, p)
  }

  /** The client follows nothing, every other client is as before. */
  ghost predicate ClientGone(before: Table, after: Table, client: Client) {
    forall cl, p :: after.Lookup(cl, p) == (if cl == client then None else before.Lookup(cl, p))
  }

  /** The client has left some of its subscriptions, every other client is as before. */
  ghost predicate SomeDropped(before: Table, after: Table, client: Client) {
    exists list, done :: DroppedUpTo(before, after, client, list, done)
  }

  ghost predicate DroppedUpTo(before: Table, after: Table, client: Client, list: seq<Id>, done: nat) {
    before.Lists(client, list) && done <= |list| && PairsDropped(before, after, client, list[..done])
  }

  /** Subscribing `msg` needs a new upstream subscription. */
  ghost predicate Picks(sm: Table, msg: Msg)
    requires HasParam(msg)
  {
    var q := QueryOf(msg);
    q.Some? && q.value !in sm.paramToId
  }

  /** Unsubscribing `msg` leaves the subscription with nobody. */
  ghost predicate Tears(sm: Table, client: Client, msg: Msg)
    requires HasParam(msg)
  {
    Followed(sm, client, msg) &&
    var x := Resolve(sm, QueryOf(msg).value).value;
    sm.Leave(x, client).Empty(x)
  }

  /** Some subscription has no other follower. */
  ghost predicate SoleFollower(sm: Table, client: Client) {
    exists x :: sm.Has(x, client) && sm.Leave(x, client).Empty(x)
  }

  class Broker {
    const sm: SubscriptionManager
    const pool: UpstreamPool

    ghost function Repr(): set<object> {
      {sm, pool, pool.idGen} + pool.Objs()
    }

    ghost predicate Valid()
      reads Repr()
    {
      && pool.Shape()
      && AtRest(sm.Model(), pool.Model(), pool.Maps())
      && (!pool.eth ==> HeldIdsLive(sm.Model().idToParam, pool.idGen.Live()))
    }

    /** The generator has an id left. */
    ghost predicate CanDrawId()
      reads pool.idGen
    {
      |pool.idGen.Live()| < MAX_INT32
    }

    /** An Ethereum node answers a subscribe with an id that is not in use. */
    ghost predicate Assigns(net: Net)
      reads sm
    {
      pool.eth && net.Replies? ==> net.msg.result.VStr? && Name(net.msg.result.s) !in sm.Model().idToParam
    }

    constructor (conns: seq<Manager>, idGen: UniqueID, eth: bool)
      requires forall i, j :: 0 <= i < j < |conns| ==> conns[i].Conn() != conns[j].Conn()
      requires forall i :: 0 <= i < |conns| ==>
                 conns[i].Ids() == idGen && conns[i].Eth? == eth && conns[i].Maps() == NoSubs
      ensures Valid() && pool.conns == conns && pool.eth == eth && sm.Model() == EmptyTable
    {
      var manager := new SubscriptionManager();
      var upstream := new UpstreamPool(conns, idGen, eth);
      sm, pool := manager, upstream;
    }

    /** The part of addSubscription that makes sure the query is subscribed upstream. */
    method EnsureSubscribed(param: Param, net: Net, rand: nat -> int) returns (r: Result<Id>)
      requires Valid() && Fair(rand) && (param !in sm.Model().paramToId ==> pool.CanCall() && Assigns(net))
      modifies Repr()
      ensures Valid()
      ensures r.Ok? <==> param in old(sm.Model()).paramToId || old(pool.Next(net)).Replies?
      ensures r.Err? ==>
                sm.Model() == old(sm.Model()) && pool.Model() == old(pool.Model()) && pool.Maps() == old(pool.Maps())
      ensures r.Ok? && param in old(sm.Model()).paramToId ==>
        r.value == old(sm.Model()).paramToId[param] && sm.Model() == old(sm.Model())
      ensures r.Ok? && param !in old(sm.Model()).paramToId ==>
        r.value !in old(sm.Model()).idToParam && sm.Model() == old(sm.Model()).Add(param, r.value)
    {
      var id, found := sm.GetSubscriptionID(param);
      pool.Kept();
      if found {
        return Ok(id);
      }
      r := SubscribeNew(param, net, rand);
    }

    method SubscribeNew(param: Param, net: Net, rand: nat -> int) returns (r: Result<Id>)
      requires Valid() && pool.CanCall() && Fair(rand) && Assigns(net)
      requires param !in sm.Model().paramToId
      modifies Repr()
      ensures Valid() && (r.Ok? <==> old(pool.Next(net)).Replies?)
      ensures r.Err? ==>
                sm.Model() == old(sm.Model()) && pool.Model() == old(pool.Model()) && pool.Maps() == old(pool.Maps())
      ensures r.Ok? ==> r.value !in old(sm.Model()).idToParam && sm.Model() == old(sm.Model()).Add(param, r.value)
    {
      r := SubscribeUpstream(param, net, rand);
      if r.Ok? {
        label Subscribed:
        sm.AddSubscription(param, r.value);
        pool.Kept@Subscribed();
      }
    }

    /** On success pool and connections are ahead of the table by the new subscription. */
    method SubscribeUpstream(param: Param, net: Net, rand: nat -> int) returns (r: Result<Id>)
      requires Valid() && pool.CanCall() && Fair(rand) && Assigns(net)
      requires param !in sm.Model().paramToId
      modifies Repr()
      ensures sm.Model() == old(sm.Model()) && (r.Ok? <==> old(pool.Next(net)).Replies?)
      ensures r.Err? ==> Valid() && pool.Model() == old(pool.Model()) && pool.Maps() == old(pool.Maps())
      ensures r.Ok? ==>
        && r.value !in sm.Model().idToParam
        && AtRest(sm.Model().Add(param, r.value), pool.Model(), pool.Maps())
        && (!pool.eth ==> HeldIdsLive(sm.Model().Add(param, r.value).idToParam, pool.idGen.Live()))
    {
      ghost var before, maps := pool.Model(), pool.Maps();
      UnknownAtRest(sm.Model(), before, maps, param);
      var res, c := pool.Subscribe(param, net, rand);
      r := res;
      if r.Ok? {
        AddedAtRest(sm.Model(), before, maps, param, r.value, c);
      }
    }

    /** On success the pair (client, query) is in the relation with the client's id, and every other
        pair is as before; on failure nothing has changed. */
    method AddSubscription(client: Client, msg: Msg, net: Net, rand: nat -> int) returns (r: Result<Id>)
      requires Valid() && Fair(rand) && HasParam(msg)
      requires Picks(sm.Model(), msg) ==> pool.CanCall() && Assigns(net)
      modifies Repr()
      ensures Valid()
      ensures QueryOf(msg).Some? ==>
        PairAdded(old(sm.Model()), sm.Model(), client, QueryOf(msg).value, NotifyId(msg), old(pool.Next(net)), r)
      ensures QueryOf(msg).None? ==> r.Err?
      ensures msg.params.VMap? && "query" in msg.params.fields && msg.params.fields["query"].VStr? ==>
        var cid := if msg.verb == "eth_subscribe" then NoId else msg.id;
        PairAdded(old(sm.Model()), sm.Model(), client, Name(msg.params.fields["query"].s), cid, old(pool.Next(net)), r)
      ensures msg.params.VList? && msg.params.items[0].VStr? ==>
        var cid := if msg.verb == "eth_subscribe" then NoId else msg.id;
        PairAdded(old(sm.Model()), sm.Model(), client, Name(msg.params.items[0].s), cid, old(pool.Next(net)), r)
      ensures
        (&& !(msg.params.VMap? && "query" in msg.params.fields && msg.params.fields["query"].VStr?)
         && !(msg.params.VList? && msg.params.items[0].VStr?)) ==>
          r.Err?
      ensures r.Err? ==>
                sm.Model() == old(sm.Model()) && pool.Model() == old(pool.Model()) && pool.Maps() == old(pool.Maps())
    {
      var parsed := GetSubscriptionParam(msg);
      if parsed.Err? {
        return Err(parsed.error);
      }
      r := EnsureSubscribed(parsed.value, net, rand);
      if r.Err? {
        return;
      }
      ghost var table := sm.Model();
      JoinClient(r.value, client, NotifyId(msg));
      JoinedPair(old(sm.Model()), table, parsed.value, r.value, client, NotifyId(msg));
    }

    method JoinClient(id: Id, client: Client, cid: MsgId)
      requires Valid() && id in sm.Model().clients
      modifies sm
      ensures Valid() && sm.Model() == old(sm.Model()).Join(id, client, cid)
    {
      ghost var table := sm.Model();
      sm.SubscribeClient(id, client, cid);
      pool.Kept();
      ClientsAtRest(table, sm.Model(), pool.Model(), pool.Maps());
    }

    /** Unsubscribes upstream from `x`, which nobody follows. */
    method TearDown(x: Id, net: Net, rand: nat -> int) returns (ok: bool)
      requires Valid() && Fair(rand) && (x in sm.Model().idToParam ==> CanDrawId())
      modifies Repr()
      ensures Valid() && pool.AllOpen() == old(pool.AllOpen()) && (old(CanDrawId()) ==> CanDrawId())
      ensures ok <==> x in old(sm.Model()).idToParam && old(pool.Over(x, net)).Replies?
      ensures sm.Model() == if ok then old(sm.Model()).Remove(x) else old(sm.Model())
    {
      ok := UnsubscribeUpstream(x, net, rand);
      if ok {
        label Unsubscribed:
        sm.RemoveSubscription(x);
        pool.Kept@Unsubscribed();
      }
    }

    /** On success pool and connections are ahead of the table by the removal. */
    method UnsubscribeUpstream(x: Id, net: Net, rand: nat -> int) returns (ok: bool)
      requires Valid() && Fair(rand) && (x in sm.Model().idToParam ==> CanDrawId())
      modifies Repr()
      ensures sm.Model() == old(sm.Model())
      ensures pool.AllOpen() == old(pool.AllOpen()) && (old(CanDrawId()) ==> CanDrawId())
      ensures ok <==> x in old(sm.Model()).idToParam && old(pool.Over(x, net)).Replies?
      ensures !ok ==> Valid()
      ensures ok ==>
        && AtRest(sm.Model().Remove(x), pool.Model(), pool.Maps())
        && (!pool.eth ==> HeldIdsLive(sm.Model().Remove(x).idToParam, pool.idGen.Live()))
    {
      ghost var before, maps, live := pool.Model(), pool.Maps(), pool.idGen.Live();
      KnownToPool(sm.Model(), before, maps, x);
      ok := pool.Unsubscribe(x, net, rand);
      if ok {
        RemovedAtRest(sm.Model(), before, maps, x);
        IdsLeft(sm.Model(), live, x);
      }
    }

    method DropIfEmpty(x: Id, net: Net, rand: nat -> int) returns (ok: bool)
      requires Valid() && Fair(rand) && x in sm.Model().idToParam && (sm.Model().Empty(x) ==> CanDrawId())
      modifies Repr()
      ensures Valid() && pool.AllOpen() == old(pool.AllOpen()) && (old(CanDrawId()) ==> CanDrawId())
      ensures ok <==> !old(sm.Model()).Empty(x) || old(pool.Over(x, net)).Replies?
      ensures sm.Model() == if ok && old(sm.Model()).Empty(x) then old(sm.Model()).Remove(x) else old(sm.Model())
    {
      var empty := sm.SubscriptionEmpty(x);
      ok := true;
      if empty {
        ok := TearDown(x, net, rand);
      }
    }

    /** The lookups of removeSubscription, outside the mutex. */
    method FindFollowed(client: Client, msg: Msg) returns (r: Result<Id>)
      requires HasParam(msg)
      ensures r.Ok? <==> Followed(sm.Model(), client, msg)
      ensures r.Ok? ==> Resolve(sm.Model(), QueryOf(msg).value) == Some(r.value)
    {
      var parsed := GetSubscriptionParam(msg);
      if parsed.Err? {
        return Err(parsed.error);
      }
      var subID := parsed.value;
      if !IsEthSubscriptionID(parsed.value) {
        var id, found := sm.GetSubscriptionID(parsed.value);
        if !found {
          return Err("subscription does not exist");
        }
        subID := id;
      }
      var subscribed := sm.ClientSubscribed(subID, client);
      r := if subscribed then Ok(subID) else Err("subscription does not exist");
    }

    /** The client's pair leaves the relation even when the upstream unsubscribe fails. */
    method DropClient(client: Client, x: Id, net: Net, rand: nat -> int) returns (ok: bool)
      requires Valid() && Fair(rand) && sm.Model().Has(x, client)
      requires sm.Model().Leave(x, client).Empty(x) ==> CanDrawId()
      modifies Repr()
      ensures Valid() && pool.AllOpen() == old(pool.AllOpen()) && (old(CanDrawId()) ==> CanDrawId())
      ensures
        var dropped := old(sm.Model()).Leave(x, client);
        && (ok <==> !dropped.Empty(x) || old(pool.Over(x, net)).Replies?)
        && sm.Model() == if ok && dropped.Empty(x) then dropped.Remove(x) else dropped
    {
      LeaveClient(x, client, net);
      ok := DropIfEmpty(x, net, rand);
    }

    method LeaveClient(x: Id, client: Client, ghost net: Net)
      requires Valid()
      modifies sm
      ensures pool.AllOpen() == old(pool.AllOpen()) && pool.Over(x, net) == old(pool.Over(x, net))
      ensures Valid() && sm.Model() == old(sm.Model()).Leave(x, client)
    {
      ghost var table := sm.Model();
      sm.UnsubscribeClient(x, client);
      pool.Kept();
      ClientsAtRest(table, sm.Model(), pool.Model(), pool.Maps());
    }

    /** When the query cannot be resolved or the client does not follow it, nothing changes.  Otherwise
        the client's pair leaves the relation, and the subscription goes when nobody is left and the
        upstream unsubscribe succeeds. */
    method RemoveSubscription(client: Client, msg: Msg, net: Net, rand: nat -> int) returns (r: Result<()>)
      requires Valid() && Fair(rand) && HasParam(msg)
      requires Tears(sm.Model(), client, msg) ==> CanDrawId()
      modifies Repr()
      ensures Valid()
      ensures Removed(old(sm.Model()), sm.Model(), client, msg, old(OverNamed(client, msg, net)), r)
      ensures msg.params.VMap? && "query" in msg.params.fields && msg.params.fields["query"].VStr? ==>
        PairTakenOut(old(sm.Model()), sm.Model(), client, msg.params.fields["query"].s, r)
      ensures msg.params.VList? && msg.params.items[0].VStr? ==>
        PairTakenOut(old(sm.Model()), sm.Model(), client, msg.params.items[0].s, r)
      ensures
        (&& !(msg.params.VMap? && "query" in msg.params.fields && msg.params.fields["query"].VStr?)
         && !(msg.params.VList? && msg.params.items[0].VStr?)) ==>
          r.Err? && sm.Model() == old(sm.Model())
    {
      ghost var before, over := sm.Model(), OverNamed(client, msg, net);
      r := RemoveNamed(client, msg, net, rand);
      NamedPair(before, sm.Model(), client, msg, over, r);
    }

    /** What becomes of an unsubscribe of the subscription that the message names. */
    ghost function OverNamed(client: Client, msg: Msg, net: Net): Net
      requires HasParam(msg)
      reads Repr()
    {
      if Followed(sm.Model(), client, msg) then pool.Over(Resolve(sm.Model(), QueryOf(msg).value).value, net) else net
    }

    method RemoveNamed(client: Client, msg: Msg, net: Net, rand: nat -> int) returns (r: Result<()>)
      requires Valid() && Fair(rand) && HasParam(msg)
      requires Tears(sm.Model(), client, msg) ==> CanDrawId()
      modifies Repr()
      ensures Valid()
      ensures Removed(old(sm.Model()), sm.Model(), client, msg, old(OverNamed(client, msg, net)), r)
    {
      var found := FindFollowed(client, msg);
      pool.Kept();
      if found.Err? {
        return Err(found.error);
      }
      r := DropFollowed(client, found.value, net, rand);
    }

    /** The rest of removeSubscription once the pair is found. */
    method DropFollowed(client: Client, x: Id, net: Net, rand: nat -> int) returns (r: Result<()>)
      requires Valid() && Fair(rand) && sm.Model().Has(x, client)
      requires sm.Model().Leave(x, client).Empty(x) ==> CanDrawId()
      modifies Repr()
      ensures Valid() && PairsDropped(old(sm.Model()), sm.Model(), client, [x])
      ensures r.Ok? <==> !old(sm.Model()).Leave(x, client).Empty(x) || old(pool.Over(x, net)).Replies?
      ensures r.Err? <==> x in sm.Model().idToParam && sm.Model().Empty(x)
      ensures r.Ok? ==> (x in sm.Model().idToParam <==> !old(sm.Model()).Leave(x, client).Empty(x))
    {
      ghost var table := sm.Model();
      var ok := DropClient(client, x, net, rand);
      LeftPair(table, sm.Model(), x, client);
      r := if ok then Ok(()) else Err("error unsubscribing upstream");
    }

    /** The client is dropped from its subscriptions one by one.  The loop stops at the first upstream
        unsubscribe that fails; what it has dropped till then stays dropped. */
    method RemoveAllSubscriptions(client: Client, nets: nat -> Net, rand: nat -> int)
      returns (ok: bool, list: seq<Id>, done: nat)
      requires Valid() && Fair(rand) && (SoleFollower(sm.Model(), client) ==> CanDrawId())
      modifies Repr()
      ensures Valid()
      ensures old(sm.Model()).Lists(client, list)
      ensures Visited(old(sm.Model()), sm.Model(), client, list, done, ok)
      ensures ok ==> ClientGone(old(sm.Model()), sm.Model(), client)
      ensures !ok ==> !old(pool.AllOpen()) || exists i :: !nets(i).Replies?
    {
      list := sm.GetSubscriptions(client);
      ghost var table := sm.Model();
      StartPending(table, client, list);
      done, ok := 0, true;
      while ok && done < |list|
        invariant Valid() && (SoleFollower(table, client) ==> CanDrawId()) && pool.AllOpen() == old(pool.AllOpen())
        invariant Visited(table, sm.Model(), client, list, done, ok)
        invariant !ok ==> done > 0 && (!old(pool.AllOpen()) || !nets(done - 1).Replies?)
      {
        ok := VisitNext(table, client, list, done, nets(done), rand);
        done := done + 1;
      }
      if ok {
        VisitedAll(table, sm.Model(), client, list, done);
      }
    }

    /** One turn of the loop of removeAllSubscriptions. */
    method VisitNext(ghost table: Table, client: Client, list: seq<Id>, done: nat, net: Net, rand: nat -> int)
      returns (ok: bool)
      requires Valid() && Fair(rand) && (SoleFollower(table, client) ==> CanDrawId())
      requires done < |list| && Visited(table, sm.Model(), client, list, done, true)
      modifies Repr()
      ensures Valid() && pool.AllOpen() == old(pool.AllOpen()) && (SoleFollower(table, client) ==> CanDrawId())
      ensures Visited(table, sm.Model(), client, list, done + 1, ok)
      ensures net.Replies? && pool.AllOpen() ==> ok
    {
      ghost var mid := sm.Model();
      StillSole(table, mid, client, list, done);
      pool.OverOpen(list[done], net);
      ok := DropClient(client, list[done], net, rand);
      VisitOne(table, mid, sm.Model(), client, list, done);
    }

    /** A notification goes to the clients registered now, each under its own id. */
    method OnSubscriptionMessage(msg: Msg) returns (sends: map<Client, Msg>)
      requires msg.id.StrId?
      ensures sends == map client | client in sm.Model().ClientsOf(Name(msg.id.s)) ::
                         msg.CloneWithID(sm.Model().ClientsOf(Name(msg.id.s))[client])
    {
      var clients := sm.GetSubscriptionClients(Name(msg.id.s));
      sends := map client | client in clients :: msg.CloneWithID(clients[client]);
    }

    method HandleRequest(msg: Msg, net: Net, rand: nat -> int) returns (r: Result<Msg>)
      requires Valid() && pool.CanCall() && Fair(rand)
      modifies Repr()
      ensures Valid() && sm.Model() == old(sm.Model())
      ensures r == Outcome(msg, old(pool.Next(net)))
    {
      var res := pool.MakeRequest(msg, net, rand);
      r := if res.Ok? then Ok(res.value.CloneWithID(msg.id)) else Err(res.error);
    }

    method HandleSubscribe(client: Client, msg: Msg, net: Net, rand: nat -> int) returns (reply: Msg)
      requires Valid() && Fair(rand) && HasParam(msg)
      requires Picks(sm.Model(), msg) ==> pool.CanCall() && Assigns(net)
      modifies Repr()
      ensures Valid()
      ensures reply.id == msg.id && Told(old(sm.Model()), sm.Model(), client, msg, old(pool.Next(net)), reply)
    {
      var res := AddSubscription(client, msg, net, rand);
      if res.Err? {
        return ErrorResponse(msg, -100, res.error);
      }
      reply := if msg.verb == "subscribe" then EmptyResult(msg) else WithResult(msg, VStr(res.value.text));
    }

    method HandleUnsubscribe(client: Client, msg: Msg, net: Net, rand: nat -> int) returns (reply: Msg)
      requires Valid() && Fair(rand) && HasParam(msg)
      requires IsUnsubscribe(msg) && (Tears(sm.Model(), client, msg) ==> CanDrawId())
      modifies Repr()
      ensures Valid()
      ensures reply.id == msg.id
      ensures Untold(old(sm.Model()), sm.Model(), client, msg, old(Reaches(client, msg, net)), reply)
    {
      var res := RemoveSubscription(client, msg, net, rand);
      if res.Err? {
        return ErrorResponse(msg, -100, res.error);
      }
      reply := Acknowledged(msg);
    }

    /** What becomes of the upstream request that `msg` may cause. */
    ghost function Reaches(client: Client, msg: Msg, net: Net): Net
      reads Repr()
    {
      if IsUnsubscribe(msg) && HasParam(msg) && Followed(sm.Model(), client, msg)
      then pool.Over(Resolve(sm.Model(), QueryOf(msg).value).value, net)
      else pool.Next(net)
    }

    /** What the program asks of its callers: parameters to look at, and a connection and an id to draw
        where an upstream request is needed. */
    ghost predicate Serviceable(client: Client, msg: Msg, net: Net)
      reads Repr()
    {
      && (IsSubscribe(msg) ==> HasParam(msg) && (Picks(sm.Model(), msg) ==> pool.CanCall() && Assigns(net)))
      && (IsUnsubscribe(msg) ==> HasParam(msg) && (Tears(sm.Model(), client, msg) ==> CanDrawId()))
      && (msg.verb == "unsubscribe_all" && SoleFollower(sm.Model(), client) ==> CanDrawId())
    }

    /** Dispatch on the method; what the client is told is what happened to the relation. */
    method HandleSubscription(client: Client, msg: Msg, nets: nat -> Net, rand: nat -> int) returns (r: Result<Msg>)
      requires Valid() && Fair(rand) && Serviceable(client, msg, nets(0))
      modifies Repr()
      ensures Valid()
      ensures r.Ok? ==> r.value.id == msg.id
      ensures Handled(old(sm.Model()), sm.Model(), client, msg,
                      old(Reaches(client, msg, nets(0))), old(MayFail(nets)), r)
    {
      if IsSubscribe(msg) {
        var reply := HandleSubscribe(client, msg, nets(0), rand);
        return Ok(reply);
      }
      if IsUnsubscribe(msg) {
        var reply := HandleUnsubscribe(client, msg, nets(0), rand);
        return Ok(reply);
      }
      if msg.verb == "unsubscribe_all" {
        r := HandleUnsubscribeAll(client, msg, nets, rand);
        return;
      }
      r := Err("unsupported method on subscriptions");
    }

    /** Some upstream request fails, or some connection is closed. */
    ghost predicate MayFail(nets: nat -> Net)
      reads Repr()
    {
      !pool.AllOpen() || exists i :: !nets(i).Replies?
    }

    method HandleUnsubscribeAll(client: Client, msg: Msg, nets: nat -> Net, rand: nat -> int) returns (r: Result<Msg>)
      requires Valid() && Fair(rand) && (SoleFollower(sm.Model(), client) ==> CanDrawId())
      modifies Repr()
      ensures Valid()
      ensures r.Ok? ==> r.value == EmptyResult(msg)
      ensures r.Ok? ==> ClientGone(old(sm.Model()), sm.Model(), client)
      ensures r.Err? ==> SomeDropped(old(sm.Model()), sm.Model(), client) && old(MayFail(nets))
    {
      ghost var table := sm.Model();
      var ok, list, done := RemoveAllSubscriptions(client, nets, rand);
      assert DroppedUpTo(table, sm.Model(), client, list, done);
      r := if ok then Ok(EmptyResult(msg)) else Err("error unsubscribing upstream");
    }
  }

  /** An unsubscribe takes out the pair that the message names; the reply is an error when the
      subscription was left with nobody and could not be taken down.  When there is no such pair the
      reply is an error and nothing has changed. */
  ghost predicate Untold(before: Table, after: Table, client: Client, msg: Msg, net: Net, reply: Msg)
    requires HasParam(msg)
  {
    if Followed(before, client, msg) then
      var x := Resolve(before, QueryOf(msg).value).value;
      && PairsDropped(before, after, client, [x])
      && (IsError(reply) <==> before.Leave(x, client).Empty(x) && !net.Replies?)
      && (IsError(reply) <==> x in after.idToParam && after.Empty(x))
      && (!IsError(reply) ==>
            reply.error.None? && reply.result == if msg.verb == "unsubscribe" then VMap(map[]) else VBool(true))
    else IsError(reply) && after == before
  }

  function Acknowledged(msg: Msg): Msg {
    if msg.verb == "unsubscribe" then EmptyResult(msg) else WithResult(msg, VBool(true))
  }

  predicate IsSubscribe(msg: Msg) {
    msg.verb == "subscribe" || msg.verb == "eth_subscribe"
  }

  predicate IsUnsubscribe(msg: Msg) {
    msg.verb == "unsubscribe" || msg.verb == "eth_unsubscribe"
  }

  /** The ids not yet visited are registered as they were, each with the client. */
  ghost predicate Pending(before: Table, now: Table, client: Client, ids: seq<Id>, k: int) {
    && before.Valid() && 0 <= k <= |ids|
    && before.Lists(client, ids)
    && (forall i :: k <= i < |ids| ==>
          && now.Has(ids[i], client) && ids[i] in now.idToParam && ids[i] in before.idToParam
          && now.idToParam[ids[i]] == before.idToParam[ids[i]]
          && now.clients[ids[i]] == before.clients[ids[i]])
  }

  /** `done` ids have been visited; on failure the last of them is still registered, with nobody. */
  ghost predicate Visited(before: Table, now: Table, client: Client, ids: seq<Id>, done: nat, ok: bool) {
    && done <= |ids|
    && (ok ==> Pending(before, now, client, ids, done))
    && PairsDropped(before, now, client, ids[..done])
    && (!ok ==> done > 0 && ids[done - 1] in now.idToParam && now.Empty(ids[done - 1]))
  }

  lemma VisitedAll(before: Table, now: Table, client: Client, ids: seq<Id>, done: nat)
    requires Visited(before, now, client, ids, done, true) && done >= |ids|
    ensures ClientGone(before, now, client)
  {
  }

  lemma StartPending(table: Table, client: Client, ids: seq<Id>)
    requires table.Valid()
    requires table.Lists(client, ids)
    ensures Visited(table, table, client, ids, 0, true)
  {
    forall i | 0 <= i < |ids|
      ensures table.Has(ids[i], client) && ids[i] in table.idToParam
    {
      assert ids[i] in ids;
    }
  }

  lemma StillSole(before: Table, now: Table, client: Client, ids: seq<Id>, k: nat)
    requires Visited(before, now, client, ids, k, true) && k < |ids|
    ensures now.Has(ids[k], client) && (now.Leave(ids[k], client).Empty(ids[k]) ==> SoleFollower(before, client))
  {
    assert ids[k] in ids;
  }

  /** One more id visited, its upstream unsubscribe done, failed or not needed. */
  lemma VisitOne(before: Table, mid: Table, after: Table, client: Client, ids: seq<Id>, k: nat)
    requires mid.Valid() && k < |ids| && Pending(before, mid, client, ids, k)
    requires PairsDropped(before, mid, client, ids[..k])
    requires
      var dropped := mid.Leave(ids[k], client);
      after == dropped || (dropped.Empty(ids[k]) && after == dropped.Remove(ids[k]))
    ensures PairsDropped(before, after, client, ids[..k + 1])
    ensures Pending(before, after, client, ids, k + 1)
    ensures after == mid.Leave(ids[k], client) ==> ids[k] in after.idToParam
  {
    assert ids[k] in mid.idToParam;
    LeftPair(mid, after, ids[k], client);
    assert ids[..k + 1] == ids[..k] + [ids[k]];
    forall cl, p
      ensures after.Lookup(cl, p) == Without(before, client, ids[..k + 1], cl, p)
    {
      assert mid.Lookup(cl, p) == Without(before, client, ids[..k], cl, p);
    }
  }

  /** What a subscription request did to the relation, by its method and its outcome. */
  ghost predicate Handled(before: Table, after: Table, client: Client, msg: Msg, net: Net, mayFail: bool,
                          r: Result<Msg>)
    requires IsSubscribe(msg) || IsUnsubscribe(msg) ==> HasParam(msg)
  {
    if msg.verb == "subscribe" || msg.verb == "eth_subscribe" then
      r.Ok? && Told(before, after, client, msg, net, r.value)
    else if msg.verb == "unsubscribe" || msg.verb == "eth_unsubscribe" then
      r.Ok? && Untold(before, after, client, msg, net, r.value)
    else if msg.verb == "unsubscribe_all" then
      (if r.Ok? then ClientGone(before, after, client) && r.value.error.None? && r.value.result == VMap(map[])
       else SomeDropped(before, after, client) && mayFail)
    else r.Err? && after == before
  }

  /** What the reply to a subscribe tells: an error, and nothing has changed, or the pair is set. */
  ghost predicate Told(before: Table, after: Table, client: Client, msg: Msg, net: Net, reply: Msg)
    requires HasParam(msg)
  {
    var q := QueryOf(msg);
    if q.None? || (q.value !in before.paramToId && !net.Replies?) then IsError(reply) && after == before
    else
      && PairSet(before, after, client, q.value, NotifyId(msg))
      && q.value in after.paramToId && reply.error.None?
      && reply.result == if msg.verb == "subscribe" then VMap(map[]) else VStr(after.paramToId[q.value].text)
  }

  /** The broker reports an error to its client. */
  predicate IsError(reply: Msg) {
    reply.error.Some? && reply.error.value.code == -100 && reply.result == VNull
  }

  /** The client follows the subscription that the message names. */
  ghost predicate Followed(sm: Table, client: Client, msg: Msg)
    requires HasParam(msg)
  {
    var q := QueryOf(msg);
    q.Some? && Resolve(sm, q.value).Some? && sm.Has(Resolve(sm, q.value).value, client)
  }

  /** What was dropped is what the message names. */
  lemma NamedPair(before: Table, after: Table, client: Client, msg: Msg, over: Net, r: Result<()>)
    requires before.Valid() && HasParam(msg)
    requires Removed(before, after, client, msg, over, r)
    ensures QueryOf(msg).Some? ==> PairTakenOut(before, after, client, QueryOf(msg).value.text, r)
    ensures QueryOf(msg).None? ==> r.Err? && after == before
  {
    if Followed(before, client, msg) {
      var x := Resolve(before, QueryOf(msg).value).value;
      forall cl, p
        ensures after.Lookup(cl, p) ==
                if cl == client && p in before.paramToId && before.paramToId[p] == x then None
                else before.Lookup(cl, p)
      {
        assert after.Lookup(cl, p) == Without(before, client, [x], cl, p);
      }
    }
  }

  lemma LeftPair(before: Table, after: Table, x: Id, client: Client)
    requires before.Valid() && x in before.idToParam
    requires
      || after == before.Leave(x, client)
      || (before.Leave(x, client).Empty(x) && after == before.Leave(x, client).Remove(x))
    ensures PairsDropped(before, after, client, [x])
  {
    var dropped := before.Leave(x, client);
    forall cl, p
      ensures after.Lookup(cl, p) == Without(before, client, [x], cl, p)
    {
      if after != dropped {
        RemoveEmptyKeepsRelation(dropped, x, cl, p);
      }
    }
  }

  /** Unsubscribing again leaves the relation as it was before a first subscribe. */
  lemma UnsubscribeUndoesSubscribe(before: Table, during: Table, after: Table, client: Client, q: Param, cid: MsgId)
    requires during.Valid() && q in during.paramToId && before.Lookup(client, q) == None
    requires PairSet(before, during, client, q, cid)
    requires PairsDropped(during, after, client, [during.paramToId[q]])
    ensures forall cl, p :: after.Lookup(cl, p) == before.Lookup(cl, p)
  {
  }

  /** Ethereum notifications carry no id. */
  function NotifyId(msg: Msg): MsgId {
    if msg.verb == "eth_subscribe" then NoId else msg.id
  }

  lemma JoinedPair(before: Table, table: Table, q: Param, x: Id, client: Client, cid: MsgId)
    requires before.Valid() && table.Valid() && q in table.paramToId && table.paramToId[q] == x
    requires table == before || (q !in before.paramToId && x !in before.idToParam && table == before.Add(q, x))
    ensures PairSet(before, table.Join(x, client, cid), client, q, cid)
  {
  }
}
