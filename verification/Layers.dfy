/** The maps that the upstream pool and each upstream connection keep beside the broker's table. */
module Layers {
  import opened Subscriptions

  /** Subscriptions of one upstream connection. */
  datatype SubMaps = SubMaps(byId: map<Id, Param>, byParam: map<Param, Id>)
  {
    ghost predicate Valid() {
      && (forall x :: x in byId ==> byId[x] in byParam && byParam[byId[x]] == x)
      && (forall p :: p in byParam ==> byParam[p] in byId && byId[byParam[p]] == p)
    }

    function Register(p: Param, x: Id): SubMaps {
      SubMaps(byId[x := p], byParam[p := x])
    }

    function Forget(p: Param, x: Id): SubMaps {
      SubMaps(byId - {x}, byParam - {p})
    }

    /** Reading a key that is absent yields "". */
    function ParamOf(x: Id): Param {
      if x in byId then byId[x] else NoName
    }
  }

  const NoSubs := SubMaps(map[], map[])

  /** The maps of the upstream pool; a connection is named by its index. */
  datatype PoolMaps = PoolMaps(conn: map<Id, int>, id: map<Param, Id>, param: map<Id, Param>)
  {
    ghost predicate Valid() {
      && conn.Keys == param.Keys
      && (forall x :: x in param ==> param[x] in id && id[param[x]] == x)
      && (forall p :: p in id ==> id[p] in param && param[id[p]] == p)
    }

    function Add(p: Param, x: Id, c: int): PoolMaps {
      PoolMaps(conn[x := c], id[p := x], param[x := p])
    }

    function Remove(x: Id): PoolMaps {
      var p := if x in param then param[x] else NoName;
      PoolMaps(conn - {x}, id - {p}, param - {x})
    }
  }

  const EmptyPool := PoolMaps(map[], map[], map[])
}
