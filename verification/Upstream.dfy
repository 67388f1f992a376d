/** The two managers of one upstream connection, call by call.  What the network does during a call
    is a parameter of the call. */
module Upstream {
  import opened Messages
  import opened Subscriptions
  import opened Layers
  import opened Ids

  /** What becomes of one request on the wire. */
  datatype Net = SendFails | TimesOut | Replies(msg: Msg)

  /** What the caller of a request gets: the reply under the caller's id, or an error. */
  function Outcome(req: Msg, net: Net): Result<Msg> {
    match net
    case SendFails => Err("websocket client closed")
    case TimesOut => Err("timeout waiting for response")
    case Replies(msg) => Ok(msg.CloneWithID(req.id))
  }

  function SubscribeMsg(verb: string, id: Id, param: Param): Msg {
    Msg("2.0", StrId(id.text), verb, VList([VStr(param.text)]), VNull, None)
  }

  function UnsubscribeMsg(verb: string, arg: Name): Msg {
    Msg("2.0", NoId, verb, VList([VStr(arg.text)]), VNull, None)
  }

  /** The key under which an incoming message is looked up. */
  function Key(id: MsgId): Option<Id> {
    match id
    case NoId => None
    case IntId(n) => Some(Name(if n < 0 then "-" + Itoa(-n) else Itoa(n)))
    case StrId(s) => Some(Name(s))
  }

  /** Where the reader sends a message. */
  datatype Route = ToRequest(id: Id) | ToSubscription(id: Id) | Nowhere

  class CosmosConn {
    const idGen: UniqueID
    var respMap: set<Id>
    var subByID: map<Id, Param>
    var subByParam: map<Param, Id>
    /** What has been sent to the node. */
    var wire: seq<Msg>

    ghost function Maps(): SubMaps
      reads this
    {
      SubMaps(subByID, subByParam)
    }

    constructor (idGen: UniqueID)
      ensures this.idGen == idGen && respMap == {} && Maps() == NoSubs && wire == []
    {
      this.idGen := idGen;
      respMap, subByID, subByParam, wire := {}, map[], map[], [];
    }

    /** A message goes to the request that waits under its id if there is one, else to the subscription
        registered under it if there is one, else nowhere; a number is looked up as it is printed. */
    method OnUpstreamMessage(msg: Msg) returns (route: Route)
      ensures msg.id.StrId? ==> route == RouteOf(Name(msg.id.s))
      ensures msg.id.IntId? && msg.id.n >= 0 ==> route == RouteOf(Name(Itoa(msg.id.n)))
      ensures msg.id.IntId? && msg.id.n < 0 ==> route == RouteOf(Name("-" + Itoa(-msg.id.n)))
      ensures msg.id.NoId? ==> route == Nowhere
    {
      var key := Key(msg.id);
      if key == None {
        return Nowhere;
      }
      if key.value in respMap {
        return ToRequest(key.value);
      }
      if key.value in subByID {
        return ToSubscription(key.value);
      }
      route := Nowhere;
    }

    ghost function RouteOf(id: Id): Route
      reads this
    {
      if id in respMap then ToRequest(id) else if id in Maps().byId then ToSubscription(id) else Nowhere
    }

    /** The entry is stored, and then the request is sent under its id. */
    method Submit(id: Id, req: Msg, net: Net) returns (ok: bool)
      modifies this`respMap, this`wire
      ensures ok == !net.SendFails? && respMap == old(respMap) + {id}
      ensures wire == if ok then old(wire) + [req.(id := StrId(id.text))] else old(wire)
    {
      var request := req.CloneWithID(StrId(id.text));
      respMap := respMap + {id};
      if !net.SendFails? {
        wire := wire + [request];
      }
      ok := !net.SendFails?;
    }

    /** A message that echoes the id of a request that has been sent goes to that request. */
    method EchoIsRouted(id: Id, req: Msg, net: Net, echo: Msg) returns (route: Route)
      requires !net.SendFails? && echo.id == StrId(id.text)
      modifies this`respMap, this`wire
      ensures wire != [] && wire[|wire| - 1].id == echo.id && route == ToRequest(id)
    {
      var ok := Submit(id, req, net);
      route := OnUpstreamMessage(echo);
    }

    /** The entry stays behind when the send fails. */
    method MakeRequestWithID(id: Id, req: Msg, net: Net) returns (r: Result<Msg>)
      modifies this`respMap, this`wire
      ensures r == Outcome(req, net)
      ensures respMap == if net.SendFails? then old(respMap) + {id} else old(respMap) - {id}
      ensures wire == if net.SendFails? then old(wire) else old(wire) + [req.(id := StrId(id.text))]
    {
      var ok := Submit(id, req, net);
      match net
      case SendFails => return Err("websocket client closed");
      case Replies(msg) =>
        respMap := respMap - {id};
        return Ok(msg.CloneWithID(req.id));
      case TimesOut =>
        respMap := respMap - {id};
        return Err("timeout waiting for response");
    }

    method MakeRequest(req: Msg, net: Net, rand: nat -> int) returns (r: Result<Msg>)
      requires Fair(rand) && |idGen.Live()| < MAX_INT32
      modifies this`respMap, this`wire, idGen
      ensures r == Outcome(req, net)
      ensures idGen.Live() == old(idGen.Live())
      ensures net.SendFails? ==> wire == old(wire)
      ensures !net.SendFails? ==>
        exists id :: id !in old(idGen.Live()) && wire == old(wire) + [req.(id := StrId(id))]
    {
      var id := idGen.ID(rand);
      r := MakeRequestWithID(Name(id), req, net);
      idGen.Release(id);
    }

    method HasSubscription(param: Param) returns (ok: bool)
      ensures ok == (param in Maps().byParam)
    {
      ok := param in subByParam;
    }

    /** Any reply registers the subscription: the content of the reply is not looked at. */
    method SubscribeWithID(id: Id, param: Param, net: Net) returns (ok: bool)
      modifies this, idGen
      ensures ok == net.Replies?
      ensures Maps() == if ok then old(Maps()).Register(param, id) else old(Maps())
      ensures idGen.Live() == if ok then old(idGen.Live()) else old(idGen.Live()) - {id.text}
      ensures ok ==>
        wire == old(wire) + [Msg("2.0", StrId(id.text), "subscribe", VList([VStr(param.text)]), VNull, None)]
    {
      var r := MakeRequestWithID(id, SubscribeMsg("subscribe", id, param), net);
      if r.Err? {
        idGen.Release(id.text);
        return false;
      }
      subByParam := subByParam[param := id];
      subByID := subByID[id := param];
      ok := true;
    }

    method Subscribe(param: Param, net: Net, rand: nat -> int) returns (r: Result<Id>)
      requires Fair(rand) && |idGen.Live()| < MAX_INT32
      modifies this, idGen
      ensures r.Ok? <==> param !in old(Maps()).byParam && net.Replies?
      ensures r.Ok? ==>
        && r.value.text !in old(idGen.Live())
        && Maps() == old(Maps()).Register(param, r.value)
        && idGen.Live() == old(idGen.Live()) + {r.value.text}
        && wire == old(wire) + [Msg("2.0", StrId(r.value.text), "subscribe", VList([VStr(param.text)]), VNull, None)]
      ensures r.Err? ==> Maps() == old(Maps()) && idGen.Live() == old(idGen.Live())
    {
      var exists_ := HasSubscription(param);
      if exists_ {
        return Err("subscription already exists");
      }
      var id := idGen.ID(rand);
      var ok := SubscribeWithID(Name(id), param, net);
      r := if ok then Ok(Name(id)) else Err("websocket error");
    }

    method Unsubscribe(id: Id, net: Net, rand: nat -> int) returns (ok: bool)
      requires Fair(rand) && |idGen.Live()| < MAX_INT32
      modifies this, idGen
      ensures ok == net.Replies?
      ensures Maps() == if ok then old(Maps()).Forget(old(Maps()).ParamOf(id), id) else old(Maps())
      ensures idGen.Live() == if ok then old(idGen.Live()) - {id.text} else old(idGen.Live())
      ensures ok ==>
        var query := VStr(if id in old(Maps()).byId then old(Maps()).byId[id].text else "");
        exists rid :: wire == old(wire) + [Msg("2.0", StrId(rid), "unsubscribe", VList([query]), VNull, None)]
    {
      var param := if id in subByID then subByID[id] else NoName;
      var r := MakeRequest(UnsubscribeMsg("unsubscribe", param), net, rand);
      if r.Err? {
        return false;
      }
      subByID := subByID - {id};
      subByParam := subByParam - {param};
      idGen.Release(id.text);
      ok := true;
    }

    /** However many re-submissions succeed before one fails, the maps are as they were.  A failure
        releases the id of a subscription that is still registered. */
    method ReSubmitSubscriptions(nets: nat -> Net) returns (ok: bool)
      requires Maps().Valid()
      modifies this, idGen
      ensures Maps() == old(Maps())
      ensures ok ==> idGen.Live() == old(idGen.Live())
      ensures !ok ==> exists p :: p in Maps().byParam && idGen.Live() == old(idGen.Live()) - {Maps().byParam[p].text}
    {
      var todo := subByParam.Keys;
      var i: nat := 0;
      while todo != {}
        invariant todo <= subByParam.Keys
        invariant Maps() == old(Maps()) && idGen.Live() == old(idGen.Live())
        decreases |todo|
      {
        var param :| param in todo;
        var done := SubscribeWithID(subByParam[param], param, nets(i));
        if !done {
          assert param in Maps().byParam;
          return false;
        }
        assert Maps().byId == old(Maps()).byId && Maps().byParam == old(Maps()).byParam;
        todo := todo - {param};
        i := i + 1;
      }
      ok := true;
    }
  }

  class EthConn {
    const idGen: UniqueID
    var closed: bool
    var respMap: set<Id>
    var subByID: map<Id, Param>
    var subByParam: map<Param, Id>
    /** What has been sent to the node. */
    var wire: seq<Msg>

    ghost function Maps(): SubMaps
      reads this
    {
      SubMaps(subByID, subByParam)
    }

    constructor (idGen: UniqueID)
      ensures this.idGen == idGen && respMap == {} && Maps() == NoSubs && wire == []
    {
      this.idGen := idGen;
      closed, respMap, subByID, subByParam, wire := false, {}, map[], map[], [];
    }

    /** A message without an id is a notification and names its subscription in its parameters. */
    method OnUpstreamMessage(msg: Msg) returns (route: Route)
      requires msg.id.NoId? && msg.params != VNull ==> msg.params.VMap?
      requires msg.id.NoId? && msg.params.VMap? && "subscription" in msg.params.fields ==>
                 msg.params.fields["subscription"].VStr?
      ensures msg.id.StrId? ==> route == if Name(msg.id.s) in respMap then ToRequest(Name(msg.id.s)) else Nowhere
      ensures msg.id.IntId? && msg.id.n >= 0 ==>
        route == if Name(Itoa(msg.id.n)) in respMap then ToRequest(Name(Itoa(msg.id.n))) else Nowhere
      ensures msg.id.IntId? && msg.id.n < 0 ==>
        var text := "-" + Itoa(-msg.id.n);
        route == if Name(text) in respMap then ToRequest(Name(text)) else Nowhere
      ensures route.ToSubscription? <==>
        && msg.id.NoId? && msg.params.VMap? && "subscription" in msg.params.fields
        && Name(msg.params.fields["subscription"].s) in Maps().byId
      ensures route.ToSubscription? ==> route.id == Name(msg.params.fields["subscription"].s)
    {
      if msg.id.NoId? {
        if msg.params == VNull || "subscription" !in msg.params.fields {
          return Nowhere;
        }
        var id := Name(msg.params.fields["subscription"].s);
        if id in subByID {
          return ToSubscription(id);
        }
      } else {
        var key := Key(msg.id).value;
        if key in respMap {
          return ToRequest(key);
        }
      }
      route := Nowhere;
    }

    /** The entry is stored, and then the request is sent under its id. */
    method Submit(id: Id, req: Msg, net: Net) returns (ok: bool)
      modifies this`respMap, this`wire
      ensures ok == (!closed && !net.SendFails?)
      ensures respMap == if closed then old(respMap) else old(respMap) + {id}
      ensures wire == if ok then old(wire) + [req.(id := StrId(id.text))] else old(wire)
    {
      var request := req.CloneWithID(StrId(id.text));
      if closed {
        return false;
      }
      respMap := respMap + {id};
      if !net.SendFails? {
        wire := wire + [request];
      }
      ok := !net.SendFails?;
    }

    /** A message that echoes the id of a request that has been sent goes to that request. */
    method EchoIsRouted(id: Id, req: Msg, net: Net, echo: Msg) returns (route: Route)
      requires !closed && !net.SendFails? && echo.id == StrId(id.text)
      modifies this`respMap, this`wire
      ensures wire != [] && wire[|wire| - 1].id == echo.id && route == ToRequest(id)
    {
      var ok := Submit(id, req, net);
      route := OnUpstreamMessage(echo);
    }

    method MakeRequestWithID(id: Id, req: Msg, net: Net) returns (r: Result<Msg>)
      modifies this`respMap, this`wire
      ensures r == if closed then Err("websocket client closed") else Outcome(req, net)
      ensures respMap == if closed then old(respMap)
                         else if net.SendFails? then old(respMap) + {id} else old(respMap) - {id}
      ensures wire == if closed || net.SendFails? then old(wire) else old(wire) + [req.(id := StrId(id.text))]
    {
      var ok := Submit(id, req, net);
      if closed {
        return Err("websocket client closed");
      }
      match net
      case SendFails => return Err("websocket client closed");
      case Replies(msg) =>
        respMap := respMap - {id};
        return Ok(msg.CloneWithID(req.id));
      case TimesOut =>
        respMap := respMap - {id};
        return Err("timeout waiting for response");
    }

    method MakeRequest(req: Msg, net: Net, rand: nat -> int) returns (r: Result<Msg>)
      requires Fair(rand) && |idGen.Live()| < MAX_INT32
      modifies this`respMap, this`wire, idGen
      ensures r == if closed then Err("websocket client closed") else Outcome(req, net)
      ensures idGen.Live() == old(idGen.Live())
      ensures closed || net.SendFails? ==> wire == old(wire)
      ensures !closed && !net.SendFails? ==>
        exists id :: id !in old(idGen.Live()) && wire == old(wire) + [req.(id := StrId(id))]
    {
      var id := idGen.ID(rand);
      r := MakeRequestWithID(Name(id), req, net);
      idGen.Release(id);
    }

    /** The subscription takes the id that the node returns; the request's own id is released always. */
    method Subscribe(param: Param, net: Net, rand: nat -> int) returns (r: Result<Id>)
      requires Fair(rand) && |idGen.Live()| < MAX_INT32
      requires net.Replies? ==> net.msg.result.VStr?
      modifies this, idGen
      ensures r.Ok? <==> param !in old(Maps()).byParam && net.Replies? && !closed
      ensures r.Ok? ==> r.value == Name(net.msg.result.s) && Maps() == old(Maps()).Register(param, r.value)
      ensures r.Ok? ==>
        var query := VList([VStr(param.text)]);
        exists rid :: wire == old(wire) + [Msg("2.0", StrId(rid), "eth_subscribe", query, VNull, None)]
      ensures r.Err? ==> Maps() == old(Maps())
      ensures idGen.Live() == old(idGen.Live()) && closed == old(closed)
    {
      if param in subByParam {
        return Err("subscription already exists");
      }
      var id := idGen.ID(rand);
      var res := MakeRequestWithID(Name(id), SubscribeMsg("eth_subscribe", Name(id), param), net);
      if res.Ok? {
        var subID := Name(res.value.result.s);
        subByParam := subByParam[param := subID];
        subByID := subByID[subID := param];
        r := Ok(subID);
      } else {
        r := Err(res.error);
      }
      idGen.Release(id);
    }

    method Unsubscribe(id: Id, net: Net, rand: nat -> int) returns (ok: bool)
      requires Fair(rand) && |idGen.Live()| < MAX_INT32
      modifies this, idGen
      ensures ok == (net.Replies? && !closed)
      ensures Maps() == if ok then old(Maps()).Forget(old(Maps()).ParamOf(id), id) else old(Maps())
      ensures idGen.Live() == old(idGen.Live()) && closed == old(closed)
      ensures ok ==>
        var sid := VList([VStr(id.text)]);
        exists rid :: wire == old(wire) + [Msg("2.0", StrId(rid), "eth_unsubscribe", sid, VNull, None)]
    {
      var r := MakeRequest(UnsubscribeMsg("eth_unsubscribe", id), net, rand);
      if r.Err? {
        return false;
      }
      var param := if id in subByID then subByID[id] else NoName;
      subByID := subByID - {id};
      subByParam := subByParam - {param};
      ok := true;
    }

    method ResetAll()
      modifies this
      ensures Maps() == NoSubs && respMap == {} && closed == old(closed)
    {
      subByParam, subByID, respMap := map[], map[], {};
    }

    /** Every registered query is refused as registered already, so nothing is ever re-submitted. */
    method ReSubmitSubscriptions(nets: nat -> Net, rand: nat -> int) returns (ok: bool)
      requires Fair(rand) && |idGen.Live()| < MAX_INT32
      requires forall i: nat :: nets(i).Replies? ==> nets(i).msg.result.VStr?
      modifies this, idGen
      ensures ok <==> Maps().byParam == map[]
      ensures Maps() == old(Maps()) && idGen.Live() == old(idGen.Live())
    {
      var todo := subByParam.Keys;
      if todo != {} {
        var param :| param in todo;
        var r := Subscribe(param, nets(0), rand);
        return r.Ok?;
      }
      ok := true;
    }

    /** A reconnect empties the maps first, so that there is nothing to re-submit. */
    method Reconnect(nets: nat -> Net, rand: nat -> int) returns (ok: bool)
      requires Fair(rand) && |idGen.Live()| < MAX_INT32
      requires forall i: nat :: nets(i).Replies? ==> nets(i).msg.result.VStr?
      modifies this, idGen
      ensures ok && Maps() == NoSubs
      ensures idGen.Live() == old(idGen.Live())
    {
      ResetAll();
      ok := ReSubmitSubscriptions(nets, rand);
    }
  }

  /** A connection of a pool, of either kind. */
  datatype Manager = Cosmos(cosmos: CosmosConn) | Eth(ether: EthConn)
  {
    function Conn(): (o: object)
      ensures o is CosmosConn || o is EthConn
    {
      if Cosmos? then cosmos else ether
    }

    function Ids(): UniqueID {
      if Cosmos? then cosmos.idGen else ether.idGen
    }

    ghost function Maps(): SubMaps
      reads Conn()
    {
      if Cosmos? then cosmos.Maps() else ether.Maps()
    }

    ghost predicate Open()
      reads Conn()
    {
      Eth? ==> !ether.closed
    }

    /** What becomes of a request over this connection: nothing is sent over a closed one. */
    ghost function Via(net: Net): Net
      reads Conn()
    {
      if Open() then net else SendFails
    }

    /** An Ethereum node must answer a subscribe with a string. */
    predicate Understands(net: Net) {
      Eth? && net.Replies? ==> net.msg.result.VStr?
    }

    method MakeRequest(req: Msg, net: Net, rand: nat -> int) returns (r: Result<Msg>)
      requires Fair(rand) && |Ids().Live()| < MAX_INT32
      modifies Conn(), Ids()
      ensures r == Outcome(req, old(Via(net)))
      ensures Maps() == old(Maps()) && Open() == old(Open()) && Ids().Live() == old(Ids().Live())
    {
      match this
      case Cosmos(c) => r := c.MakeRequest(req, net, rand);
      case Eth(e) => r := e.MakeRequest(req, net, rand);
    }

    /** Cosmos registers under a fresh id that stays drawn, Ethereum under the id that the node returns. */
    method Subscribe(param: Param, net: Net, rand: nat -> int) returns (r: Result<Id>)
      requires Fair(rand) && |Ids().Live()| < MAX_INT32 && Understands(net)
      modifies Conn(), Ids()
      ensures Open() == old(Open())
      ensures r.Ok? <==> param !in old(Maps()).byParam && old(Via(net)).Replies?
      ensures r.Ok? ==> Maps() == old(Maps()).Register(param, r.value)
      ensures r.Ok? && Cosmos? ==>
        r.value.text !in old(Ids().Live()) && Ids().Live() == old(Ids().Live()) + {r.value.text}
      ensures r.Ok? && Eth? ==> r.value == Name(net.msg.result.s) && Ids().Live() == old(Ids().Live())
      ensures r.Err? ==> Maps() == old(Maps()) && Ids().Live() == old(Ids().Live())
    {
      match this
      case Cosmos(c) => r := c.Subscribe(param, net, rand);
      case Eth(e) => r := e.Subscribe(param, net, rand);
    }

    method Unsubscribe(id: Id, net: Net, rand: nat -> int) returns (ok: bool)
      requires Fair(rand) && |Ids().Live()| < MAX_INT32
      modifies Conn(), Ids()
      ensures Open() == old(Open()) && ok == old(Via(net)).Replies?
      ensures Maps() == if ok then old(Maps()).Forget(old(Maps()).ParamOf(id), id) else old(Maps())
      ensures Ids().Live() == if ok && Cosmos? then old(Ids().Live()) - {id.text} else old(Ids().Live())
    {
      match this
      case Cosmos(c) => ok := c.Unsubscribe(id, net, rand);
      case Eth(e) => ok := e.Unsubscribe(id, net, rand);
    }
  }
}
