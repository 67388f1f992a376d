/** The WebSocket proxy: the third decision loop, in front of the broker. */
module WebSocket {
  import opened Messages
  import opened Subscriptions
  import opened Ids
  import opened Upstream
  import opened Rules
  import opened Priority
  import opened Caching
  import opened Handlers
  import opened Broker

  predicate HasSubscriptionMethod(req: Msg) {
    IsSubscribe(req) || IsUnsubscribe(req) || req.verb == "unsubscribe_all"
  }

  /** What happened to the relation, given the reply that the client gets, when the broker was asked. */
  ghost predicate Performed(before: Table, after: Table, client: Client, req: Msg, net: Net, mayFail: bool,
                            reply: Option<Msg>)
    requires IsSubscribe(req) || IsUnsubscribe(req) ==> HasParam(req)
  {
    if || req.verb == "subscribe" || req.verb == "eth_subscribe" || req.verb == "unsubscribe"
       || req.verb == "eth_unsubscribe" || req.verb == "unsubscribe_all"
    then Handled(before, after, client, req, net, mayFail, if reply.Some? then Ok(reply.value) else Err(""))
    else after == before
  }

  /** What the client of an ordinary request gets. */
  function Delivered(req: Msg, net: Net): Option<Msg> {
    if net.Replies? then Some(net.msg.CloneWithID(req.id)) else None
  }

  /** A refused or replayed request leaves the relation alone; any other is the broker's. */
  ghost predicate Served(verdict: Verdict, before: Table, after: Table, client: Client, req: Msg, net: Net,
                         mayFail: bool, reply: Option<Msg>)
    requires verdict.Ask? && (IsSubscribe(req) || IsUnsubscribe(req)) ==> HasParam(req)
  {
    match verdict
    case Ask(_) =>
      && Performed(before, after, client, req, net, mayFail, reply)
      && (!HasSubscriptionMethod(req) ==> reply == Delivered(req, net))
    case GiveUp => after == before && reply == None
    case Replay(replay) => after == before && reply == Some(replay)
    case Refuse => after == before && reply == Some(UnauthorizedResponse(req))
  }

  /** What can go wrong once the reply is known: the client is gone, or the write to the cache fails. */
  datatype Ending = Ending(sends: bool, stores: bool)

  function StoredAfter(cache: map<Key, Msg>, verdict: Verdict, key: Key, reply: Option<Msg>, ending: Ending)
    : map<Key, Msg>
  {
    if ending.sends && ending.stores then OfferedTo(cache, verdict, key, reply) else cache
  }

  function OfferedTo(cache: map<Key, Msg>, verdict: Verdict, key: Key, reply: Option<Msg>): map<Key, Msg> {
    if reply.Some? then Offered(cache, verdict, key, reply.value) else cache
  }

  // ----- subscriptions and the cache

  /** After a subscribe that the broker has served, the next client that sends it is not subscribed but
      replayed the reply exactly when the rule has cache settings that let the reply in and sending and
      storing it succeed.  A reply that tells success always is let in. */
  lemma NextSubscribeIsReplayedIff(env: Env, rules: seq<Rule>, default: Action, cache: map<Key, Msg>, req: Msg,
                                   id: MsgId, before: Table, after: Table, client: Client, net: Net, mayFail: bool,
                                   reply: Option<Msg>, ending: Ending)
    requires IsSubscribe(req) && HasParam(req) && SocketVerdict(env, rules, default, cache, req, Fine).Ask?
    requires Served(SocketVerdict(env, rules, default, cache, req, Fine), before, after, client, req, net, mayFail,
                    reply)
    ensures
      var v := SocketVerdict(env, rules, default, cache, req, Fine);
      var now := StoredAfter(cache, v, env.KeyOf(req), reply, ending);
      var next := SocketVerdict(env, rules, default, now, req.CloneWithID(id), Fine);
      && reply.Some?
      && next == (if ending.sends && ending.stores && v.config.Some? && MayStore(v.config.value, reply.value)
                  then Replay(reply.value.CloneWithID(id)) else v)
      && (reply.value.error.None? && v.config.Some? ==> MayStore(v.config.value, reply.value))
  {
    SameDecider(env, rules, req, req.CloneWithID(id));
  }

  /** A client that is replayed the reply to a subscribe reads what the first one read, and follows what it
      followed before. */
  lemma ReplayedIsNotSubscribed(reply: Msg, before: Table, after: Table, client: Client, req: Msg, net: Net,
                                mayFail: bool, read: Option<Msg>, q: Param)
    requires Served(Replay(reply), before, after, client, req, net, mayFail, read)
    ensures read == Some(reply) && after.Lookup(client, q) == before.Lookup(client, q)
  {
  }

  class JsonRpcWebSocketProxy {
    const env: Env
    const cache: ResponseCache
    const broker: Broker
    var rules: seq<JsonRpcRule>
    var defaultAction: Action

    constructor (env: Env, cache: ResponseCache, broker: Broker)
      ensures this.env == env && this.cache == cache && this.broker == broker && rules == []
    {
      this.env, this.cache, this.broker, rules, defaultAction := env, cache, broker, [], Deny;
    }

    method SetRules(rules: seq<JsonRpcRule>, defaultAction: Action)
      modifies this`rules, this`defaultAction
      ensures this.rules == rules && this.defaultAction == defaultAction
    {
      this.rules, this.defaultAction := rules, defaultAction;
    }

    /** The broker can serve the request. */
    ghost predicate Serviceable(client: Client, req: Msg, net: Net)
      reads broker.Repr()
    {
      if HasSubscriptionMethod(req) then broker.Serviceable(client, req, net) else broker.pool.CanCall()
    }

    /** `reply` is what the client is sent; it arrives if `ending.sends`. */
    method HandleRequest(client: Client, request: Msg, fault: Fault, nets: nat -> Net, rand: nat -> int, ending: Ending)
      returns (reply: Option<Msg>)
      requires Ready(env, rules, request, Decides(env, request)) && broker.Valid() && Fair(rand)
      requires SocketVerdict(env, Configured(rules), defaultAction, cache.entries, request, fault).Ask? ==>
                 Serviceable(client, request, nets(0))
      modifies cache, broker.Repr()
      ensures broker.Valid()
      ensures
        var v := SocketVerdict(env, Configured(old(rules)), old(defaultAction), old(cache.entries), request, fault);
        && Served(v, old(broker.sm.Model()), broker.sm.Model(), client, request,
                  old(broker.Reaches(client, request, nets(0))), old(broker.MayFail(nets)), reply)
        && cache.entries == StoredAfter(old(cache.entries), v, env.KeyOf(request), reply, ending)
        && (v.Refuse? ==>
              && reply.Some? && reply.value.id == request.id && reply.value.result == VNull
              && reply.value.error.Some? && reply.value.error.value.code == 401)
    {
      var v := DecideFor(client, request, fault, nets);
      reply := CarryOut(v, client, request, nets, rand, ending);
    }

    method CarryOut(v: Verdict, client: Client, request: Msg, nets: nat -> Net, rand: nat -> int, ending: Ending)
      returns (reply: Option<Msg>)
      requires broker.Valid() && (v.Ask? ==> Serviceable(client, request, nets(0))) && Fair(rand)
      modifies cache, broker.Repr()
      ensures broker.Valid()
      ensures Served(v, old(broker.sm.Model()), broker.sm.Model(), client, request,
                     old(broker.Reaches(client, request, nets(0))), old(broker.MayFail(nets)), reply)
      ensures cache.entries == StoredAfter(old(cache.entries), v, env.KeyOf(request), reply, ending)
    {
      if !v.Ask? {
        return Written(v, request, None);
      }
      reply := AskBroker(client, request, nets, rand);
      if reply.Some? && ending.sends && v.config.Some? {
        Offer(env.KeyOf(request), v.config.value, reply.value, !ending.stores);
      }
    }

    /** Deciding does not touch the broker. */
    method DecideFor(client: Client, request: Msg, fault: Fault, ghost nets: nat -> Net) returns (v: Verdict)
      requires Ready(env, rules, request, Decides(env, request)) && broker.Valid()
      ensures v == SocketVerdict(env, Configured(old(rules)), old(defaultAction), old(cache.entries), request, fault)
      ensures broker.Valid() && broker.sm.Model() == old(broker.sm.Model()) && cache.entries == old(cache.entries)
      ensures broker.Reaches(client, request, nets(0)) == old(broker.Reaches(client, request, nets(0)))
      ensures broker.MayFail(nets) == old(broker.MayFail(nets))
      ensures Serviceable(client, request, nets(0)) == old(Serviceable(client, request, nets(0)))
    {
      v := Decide(request, fault);
      broker.pool.Kept();
    }

    /** The loop over the rules. */
    method Decide(request: Msg, fault: Fault) returns (v: Verdict)
      requires Ready(env, rules, request, Decides(env, request))
      ensures v == SocketVerdict(env, Configured(rules), defaultAction, cache.entries, request, fault)
    {
      ghost var hits := env.Hits(request);
      for i := 0 to |rules|
        invariant Passed(Configured(rules), Decides(env, request), i)
      {
        assert Configured(rules)[i] == rules[i].rule;
        var matches := rules[i].Match(request, env.accepts);
        assert matches == hits(Configured(rules)[i]);
        if matches {
          var rule := rules[i].rule;
          if Decisive(rule) {
            FirstDecisiveIs(Configured(rules), hits, i);
          }
          match rule.action
          case Allow =>
            v := ReadCache(request, rule.cache, fault);
            return;
          case Deny =>
            return Refuse;
          case Other(_) =>
        }
      }
      FirstDecisiveIs(Configured(rules), hits, |rules|);
      v := if defaultAction.Allow? then Ask(None) else Refuse;
    }

    /** A matching rule allows the request. */
    method ReadCache(request: Msg, config: Option<RuleCache>, fault: Fault) returns (v: Verdict)
      ensures v == AllowedVerdict(env, config, cache.entries, request, fault)
    {
      var hash := env.KeyOf(request);
      if config.Some? {
        var cached := cache.Has(hash, fault);
        if cached {
          var res := cache.Get(hash, fault);
          return if res.None? then GiveUp else Replay(res.value.CloneWithID(request.id));
        }
      }
      v := Ask(config);
    }

    method Offer(hash: Key, config: RuleCache, reply: Msg, fails: bool)
      requires broker.Valid()
      modifies cache
      ensures broker.Valid() && broker.sm.Model() == old(broker.sm.Model())
      ensures
        cache.entries ==
        if fails then old(cache.entries) else Offered(old(cache.entries), Ask(Some(config)), hash, reply)
    {
      if reply.error.Some? && !config.cacheError {
        return;
      }
      if reply.result == VNull && !config.cacheEmptyResult {
        return;
      }
      var _ := cache.Set(hash, reply, fails);
      broker.pool.Kept();
    }

    method AskBroker(client: Client, request: Msg, nets: nat -> Net, rand: nat -> int) returns (reply: Option<Msg>)
      requires broker.Valid() && Serviceable(client, request, nets(0)) && Fair(rand)
      modifies broker.Repr()
      ensures broker.Valid() && cache.entries == old(cache.entries)
      ensures Performed(old(broker.sm.Model()), broker.sm.Model(), client, request,
                        old(broker.Reaches(client, request, nets(0))), old(broker.MayFail(nets)), reply)
      ensures !HasSubscriptionMethod(request) ==>
                reply == Delivered(request, old(broker.Reaches(client, request, nets(0))))
    {
      if HasSubscriptionMethod(request) {
        reply := AskSubscription(client, request, nets, rand);
      } else {
        reply := AskPlain(client, request, nets(0), rand);
      }
    }

    method AskSubscription(client: Client, request: Msg, nets: nat -> Net, rand: nat -> int)
      returns (reply: Option<Msg>)
      requires broker.Valid() && broker.Serviceable(client, request, nets(0))
      requires Fair(rand) && HasSubscriptionMethod(request)
      modifies broker.Repr()
      ensures broker.Valid() && cache.entries == old(cache.entries)
      ensures Performed(old(broker.sm.Model()), broker.sm.Model(), client, request,
                        old(broker.Reaches(client, request, nets(0))), old(broker.MayFail(nets)), reply)
    {
      var res := broker.HandleSubscription(client, request, nets, rand);
      reply := if res.Ok? then Some(res.value) else None;
    }

    method AskPlain(client: Client, request: Msg, net: Net, rand: nat -> int) returns (reply: Option<Msg>)
      requires broker.Valid() && broker.pool.CanCall() && Fair(rand) && !HasSubscriptionMethod(request)
      modifies broker.Repr()
      ensures broker.Valid() && cache.entries == old(cache.entries) && broker.sm.Model() == old(broker.sm.Model())
      ensures reply == Delivered(request, old(broker.Reaches(client, request, net)))
    {
      var res := broker.HandleRequest(request, net, rand);
      reply := if res.Ok? then Some(res.value) else None;
    }
  }
}
