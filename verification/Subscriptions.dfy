/** The subscription table of the WebSocket broker: three maps and the methods that keep them. */
module Subscriptions {
  import opened Messages

  /** A subscription id or a query.  Both are plain strings in the program; the wrapper makes a
      name one value to compare. */
  datatype Name = Name(text: string)

  type Id = Name
  type Param = Name

  const NoName := Name("")

  /** Identity of a connected WebSocket client. */
  type Client = int

  /** The value of the three maps.  `clients[x]` maps every client of subscription `x` to the
      message id under which that client wants to be notified. */
  datatype Table = Table(
    paramToId: map<Param, Id>,
    idToParam: map<Id, Param>,
    clients: map<Id, map<Client, MsgId>>)
  {
    /** The two directions are inverse and the client table has exactly the registered ids. */
    ghost predicate Valid() {
      && (forall p :: p in paramToId ==> paramToId[p] in idToParam && idToParam[paramToId[p]] == p)
      && (forall x :: x in idToParam ==> idToParam[x] in paramToId && paramToId[idToParam[x]] == x)
      && clients.Keys == idToParam.Keys
    }

    function Add(p: Param, x: Id): Table {
      Table(paramToId[p := x], idToParam[x := p], clients[x := map[]])
    }

    /** Go reads a missing key as "", so removing an unknown id also deletes the entry of param "". */
    function Remove(x: Id): Table {
      var p := if x in idToParam then idToParam[x] else NoName;
      Table(paramToId - {p}, idToParam - {x}, clients - {x})
    }

    predicate Empty(x: Id) {
      x in clients ==> clients[x] == map[]
    }

    predicate Has(x: Id, c: Client) {
      x in clients && c in clients[x]
    }

    function Join(x: Id, c: Client, i: MsgId): Table
      requires x in clients
    {
      this.(clients := clients[x := clients[x][c := i]])
    }

    function Leave(x: Id, c: Client): Table {
      if x in clients then this.(clients := clients[x := clients[x] - {c}]) else this
    }

    /** `ids` lists the subscriptions that `c` follows, each once. */
    ghost predicate Lists(c: Client, ids: seq<Id>) {
      && (forall x :: x in ids <==> Has(x, c))
      && (forall i, j :: 0 <= i < j < |ids| ==> ids[i] != ids[j])
    }

    function ClientsOf(x: Id): map<Client, MsgId> {
      if x in clients then clients[x] else map[]
    }

    /** The relation the broker keeps: under which message id `c` follows query `p`, if it does. */
    function Lookup(c: Client, p: Param): Option<MsgId> {
      if p in paramToId && Has(paramToId[p], c) then Some(clients[paramToId[p]][c]) else None
    }
  }

  const EmptyTable := Table(map[], map[], map[])

  /** Registering keeps the table consistent exactly when neither name is bound to something else. */
  lemma AddValidIff(t: Table, p: Param, x: Id)
    requires t.Valid()
    ensures t.Add(p, x).Valid() <==>
            (p in t.paramToId ==> t.paramToId[p] == x) && (x in t.idToParam ==> t.idToParam[x] == p)
  {
    var u := t.Add(p, x);
    if p in t.paramToId && t.paramToId[p] != x {
      assert u.idToParam[t.paramToId[p]] == p;
    } else if x in t.idToParam && t.idToParam[x] != p {
      assert u.paramToId[t.idToParam[x]] == x;
    }
  }

  /** Removing keeps the table consistent exactly when the id is known or no subscription has the
      empty query: removing an unknown id deletes the entry of the empty query. */
  lemma RemoveValidIff(t: Table, x: Id)
    requires t.Valid()
    ensures t.Remove(x).Valid() <==> x in t.idToParam || NoName !in t.paramToId
  {
    var u := t.Remove(x);
    if x !in t.idToParam && NoName in t.paramToId {
      assert t.paramToId[NoName] in u.idToParam;
      assert !u.Valid();
    }
  }

  /** Removing a subscription that nobody follows changes nothing for any client. */
  lemma RemoveEmptyKeepsRelation(t: Table, x: Id, c: Client, p: Param)
    requires t.Valid() && x in t.idToParam && t.Empty(x)
    ensures t.Remove(x).Lookup(c, p) == t.Lookup(c, p)
  {
  }

  /** A registration undone is the table before it. */
  lemma RemoveUndoesAdd(t: Table, p: Param, x: Id)
    requires t.Valid() && p !in t.paramToId && x !in t.idToParam
    ensures t.Add(p, x).Remove(x) == t
  {
  }

  class SubscriptionManager {
    var paramToID: map<Param, Id>
    var idToParam: map<Id, Param>
    var clientSubscriptions: map<Id, map<Client, MsgId>>

    ghost function Model(): Table
      reads this
    {
      Table(paramToID, idToParam, clientSubscriptions)
    }

    constructor ()
      ensures Model() == EmptyTable
    {
      paramToID, idToParam, clientSubscriptions := map[], map[], map[];
    }

    method AddSubscription(param: Param, id: Id)
      modifies this
      ensures Model() == old(Model()).Add(param, id)
    {
      paramToID := paramToID[param := id];
      idToParam := idToParam[id := param];
      clientSubscriptions := clientSubscriptions[id := map[]];
    }

    method RemoveSubscription(id: Id)
      modifies this
      ensures Model() == old(Model()).Remove(id)
    {
      var param := if id in idToParam then idToParam[id] else NoName;
      paramToID := paramToID - {param};
      idToParam := idToParam - {id};
      clientSubscriptions := clientSubscriptions - {id};
    }

    method SubscriptionEmpty(id: Id) returns (empty: bool)
      ensures empty == Model().Empty(id)
    {
      if id !in clientSubscriptions {
        return true;
      }
      empty := |clientSubscriptions[id]| == 0;
    }

    method SubscribeClient(id: Id, client: Client, clientSubID: MsgId)
      requires id in clientSubscriptions
      modifies this
      ensures Model() == old(Model()).Join(id, client, clientSubID)
    {
      clientSubscriptions := clientSubscriptions[id := clientSubscriptions[id][client := clientSubID]];
    }

    method UnsubscribeClient(id: Id, client: Client)
      modifies this
      ensures Model() == old(Model()).Leave(id, client)
    {
      if id in clientSubscriptions {
        clientSubscriptions := clientSubscriptions[id := clientSubscriptions[id] - {client}];
      }
    }

    method ClientSubscribed(id: Id, client: Client) returns (ok: bool)
      ensures ok == Model().Has(id, client)
    {
      ok := id in clientSubscriptions && client in clientSubscriptions[id];
    }

    /** The ids a client follows, each once, in the order the map happens to be traversed. */
    method GetSubscriptions(client: Client) returns (list: seq<Id>)
      ensures Model().Lists(client, list)
    {
      list := [];
      var todo := clientSubscriptions.Keys;
      while todo != {}
        invariant todo <= clientSubscriptions.Keys
        invariant forall x :: x in list <==> x !in todo && Model().Has(x, client)
        invariant forall i, j :: 0 <= i < j < |list| ==> list[i] != list[j]
        decreases |todo|
      {
        var id :| id in todo;
        if client in clientSubscriptions[id] {
          list := list + [id];
        }
        todo := todo - {id};
      }
    }

    method GetSubscriptionID(param: Param) returns (id: Id, ok: bool)
      ensures ok == (param in Model().paramToId)
      ensures id == if ok then Model().paramToId[param] else NoName
    {
      ok := param in paramToID;
      id := if ok then paramToID[param] else NoName;
    }

    method GetSubscriptionParam(id: Id) returns (param: Param, ok: bool)
      ensures ok == (id in Model().idToParam)
      ensures param == if ok then Model().idToParam[id] else NoName
    {
      ok := id in idToParam;
      param := if ok then idToParam[id] else NoName;
    }

    method GetSubscriptionClients(id: Id) returns (m: map<Client, MsgId>)
      ensures m == Model().ClientsOf(id)
    {
      m := if id in clientSubscriptions then clientSubscriptions[id] else map[];
    }
  }
}
