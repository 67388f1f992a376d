/** The pool of upstream connections: round-robin choice, and which connection holds what. */
module Pool {
  import opened Messages
  import opened Subscriptions
  import opened Layers
  import opened Ids
  import opened Upstream

  const TWO_TO_32: nat := 0x1_0000_0000

  /** Go's `%` truncates toward zero. */
  function GoMod(a: int, b: int): int
    requires b > 0
  {
    if a >= 0 then a % b else -(-a % b)
  }

  /** The index expression once the 32-bit counter has become `counter`. */
  function Pick(counter: int, n: int): int
    requires n > 0
  {
    GoMod(counter - 1, n)
  }

  /** The index that the `k`-th call of a pool's life computes. */
  function NthPick(k: nat, n: int): int
    requires n > 0
  {
    Pick(k % TWO_TO_32, n)
  }

  /** The `k`-th call finds a connection except when the counter has just wrapped to zero; then the
      index is negative unless there is a single connection. */
  lemma PickInRangeIff(k: nat, n: int)
    requires n > 0
    ensures 0 <= NthPick(k, n) < n <==> k % TWO_TO_32 != 0 || n == 1
    ensures k % TWO_TO_32 == 0 && n > 1 ==> NthPick(k, n) == -1
  {
  }

  lemma DivMod(k: int, n: int, q: int, r: int)
    requires n > 0 && k == q * n + r && 0 <= r < n
    ensures k / n == q && k % n == r
  {
    var q' := k / n;
    assert k == q' * n + k % n;
    assert (q' + 1) * n == q' * n + n && (q + 1) * n == q * n + n;
    if q' < q {
      MulMonotone(q' + 1, q, n);
    } else if q < q' {
      MulMonotone(q + 1, q', n);
    }
  }

  lemma MulMonotone(a: int, b: int, n: int)
    requires a <= b && n > 0
    ensures a * n <= b * n
  {
  }

  lemma NextDivMod(k: nat, n: int)
    requires n > 0
    ensures k % n < n - 1 ==> (k + 1) / n == k / n && (k + 1) % n == k % n + 1
    ensures k % n == n - 1 ==> (k + 1) / n == k / n + 1 && (k + 1) % n == 0
  {
    assert k == (k / n) * n + k % n;
    if k % n < n - 1 {
      DivMod(k + 1, n, k / n, k % n + 1);
    } else {
      assert k + 1 == (k / n + 1) * n;
      DivMod(k + 1, n, k / n + 1, 0);
    }
  }

  lemma NextRound(k: nat, n: int)
    requires n > 0
    ensures (k + n) / n == k / n + 1 && (k + n) % n == k % n
  {
    var q := k / n;
    assert k == q * n + k % n;
    assert (q + 1) * n == q * n + n;
    DivMod(k + n, n, q + 1, k % n);
  }

  /** How many of the first `k` calls chose connection `j`. */
  function Load(k: nat, n: int, j: int): nat
    requires n > 0
  {
    if k == 0 then 0 else Load(k - 1, n, j) + (if NthPick(k, n) == j then 1 else 0)
  }

  /** Before the counter wraps, the load of a connection is that of complete rounds, plus the round under way. */
  lemma {:induction false} LoadIs(k: nat, n: int, j: int)
    requires n > 0 && k < TWO_TO_32 && 0 <= j < n
    ensures Load(k, n, j) == k / n + (if j < k % n then 1 else 0)
  {
    if k == 0 {
      DivMod(0, n, 0, 0);
    } else {
      LoadIs(k - 1, n, j);
      NextDivMod(k - 1, n);
      assert k % TWO_TO_32 == k;
    }
  }

  /** Before the counter wraps, no two connections differ by more than one call. */
  lemma LoadsAreBalanced(k: nat, n: int, i: int, j: int)
    requires n > 0 && k < TWO_TO_32 && 0 <= i < n && 0 <= j < n
    ensures Load(k, n, i) - Load(k, n, j) <= 1
  {
    LoadIs(k, n, i);
    LoadIs(k, n, j);
  }

  /** Before the counter wraps, any `n` consecutive calls choose each connection exactly once. */
  lemma EachOncePerRound(k: nat, n: int, j: int)
    requires n > 0 && k + n < TWO_TO_32 && 0 <= j < n
    ensures Load(k + n, n, j) == Load(k, n, j) + 1
  {
    LoadIs(k, n, j);
    LoadIs(k + n, n, j);
    NextRound(k, n);
  }

  class UpstreamPool {
    const conns: seq<Manager>
    const idGen: UniqueID
    const eth: bool
    var connIdx: int
    var subscriptionConn: map<Id, int>
    var subscriptionID: map<Param, Id>
    var subscriptionParam: map<Id, Param>

    ghost function Model(): PoolMaps
      reads this
    {
      PoolMaps(subscriptionConn, subscriptionID, subscriptionParam)
    }

    /** The connections are distinct objects of one kind that share the pool's generator. */
    ghost predicate Shape() {
      && (forall i, j :: 0 <= i < j < |conns| ==> conns[i].Conn() != conns[j].Conn())
      && (forall i :: 0 <= i < |conns| ==> conns[i].Ids() == idGen && conns[i].Eth? == eth)
    }

    ghost function Objs(): (objs: set<object>)
      ensures forall o :: o in objs ==> o is CosmosConn || o is EthConn
    {
      set i | 0 <= i < |conns| :: conns[i].Conn()
    }

    ghost function Maps(): (maps: seq<SubMaps>)
      reads Objs()
      ensures |maps| == |conns|
    {
      seq(|conns|, i requires 0 <= i < |conns| reads Objs() => conns[i].Maps())
    }

    constructor (conns: seq<Manager>, idGen: UniqueID, eth: bool)
      ensures this.conns == conns && this.idGen == idGen && this.eth == eth && connIdx == 0 && Model() == EmptyPool
    {
      this.conns, this.idGen, this.eth, connIdx := conns, idGen, eth, 0;
      subscriptionConn, subscriptionID, subscriptionParam := map[], map[], map[];
    }

    /** The next call finds a connection: the counter does not wrap, or there is only one. */
    predicate CanPick()
      reads this
    {
      |conns| > 0 && 0 <= connIdx < TWO_TO_32 && ((connIdx + 1) % TWO_TO_32 != 0 || |conns| == 1)
    }

    /** The next call can pick a connection and draw an id. */
    ghost predicate CanCall()
      reads this, idGen
    {
      CanPick() && |idGen.Live()| < MAX_INT32
    }

    /** What becomes of a request over the connection that is picked next. */
    ghost function Next(net: Net): Net
      reads this, Objs()
    {
      if CanPick() && 0 <= NthPick(connIdx + 1, |conns|) < |conns|
      then conns[NthPick(connIdx + 1, |conns|)].Via(net) else net
    }

    /** What becomes of a request over the connection that holds subscription `x`. */
    ghost function Over(x: Id, net: Net): Net
      reads this, Objs()
    {
      if x in subscriptionConn && 0 <= subscriptionConn[x] < |conns| then conns[subscriptionConn[x]].Via(net) else net
    }

    ghost predicate AllOpen()
      reads Objs()
    {
      forall i :: 0 <= i < |conns| ==> conns[i].Open()
    }

    lemma OverOpen(x: Id, net: Net)
      ensures AllOpen() ==> Over(x, net) == net
    {
    }

    /** What does not touch the connections leaves their maps alone. */
    twostate lemma Kept()
      requires unchanged(this) && (forall i :: 0 <= i < |conns| ==> unchanged(conns[i].Conn()))
      ensures Maps() == old(Maps()) && AllOpen() == old(AllOpen())
      ensures forall x, net :: Over(x, net) == old(Over(x, net))
      ensures forall net :: Next(net) == old(Next(net))
    {
      assert forall i :: 0 <= i < |conns| ==>
          conns[i].Maps() == old(conns[i].Maps()) && conns[i].Open() == old(conns[i].Open());
    }

    method GetConnection() returns (c: int)
      requires CanPick()
      modifies this`connIdx
      ensures 0 <= c < |conns|
      ensures connIdx == (old(connIdx) + 1) % TWO_TO_32 && c == NthPick(old(connIdx) + 1, |conns|)
    {
      PickInRangeIff(connIdx + 1, |conns|);
      connIdx := (connIdx + 1) % TWO_TO_32;
      c := Pick(connIdx, |conns|);
    }

    /** Only connection `c` has changed, and none has closed or opened. */
    twostate predicate OnlyChanged(c: int)
      reads Objs()
    {
      && (forall i :: 0 <= i < |conns| ==> conns[i].Open() == old(conns[i].Open()))
      && (forall i :: 0 <= i < |conns| && i != c ==> conns[i].Maps() == old(conns[i].Maps()))
    }

    method Subscribe(param: Param, net: Net, rand: nat -> int) returns (r: Result<Id>, ghost c: int)
      requires Shape() && Fair(rand) && (eth && net.Replies? ==> net.msg.result.VStr?)
      requires param !in subscriptionID ==> CanCall()
      modifies this, Objs(), idGen
      ensures OnlyChanged(c)
      ensures r.Err? ==> Model() == old(Model()) && Maps() == old(Maps()) && idGen.Live() == old(idGen.Live())
      ensures r.Ok? && param in old(Model()).id ==>
        && r.value == old(Model()).id[param]
        && Model() == old(Model()) && Maps() == old(Maps()) && idGen.Live() == old(idGen.Live())
      ensures r.Ok? && param !in old(Model()).id ==>
        && 0 <= c < |conns|
        && Model() == old(Model()).Add(param, r.value, c)
        && Maps() == old(Maps())[c := old(Maps())[c].Register(param, r.value)]
        && Gained(eth, net, old(idGen.Live()), idGen.Live(), r.value)
      ensures (forall d :: 0 <= d < |conns| ==> param !in old(Maps())[d].byParam) ==>
        (r.Ok? <==> param in old(Model()).id || old(Next(net)).Replies?)
    {
      if param in subscriptionID {
        return Ok(subscriptionID[param]), 0;
      }
      var i;
      r, i := SubscribeNext(param, net, rand);
      c := i;
      if r.Ok? {
        Record(param, r.value, i);
      }
    }

    method Record(param: Param, id: Id, i: int)
      modifies this`subscriptionParam, this`subscriptionID, this`subscriptionConn
      ensures Model() == old(Model()).Add(param, id, i) && Maps() == old(Maps()) && OnlyChanged(i)
      ensures forall d :: 0 <= d < |conns| ==> conns[d].Maps() == old(conns[d].Maps())
    {
      subscriptionParam := subscriptionParam[id := param];
      subscriptionID := subscriptionID[param := id];
      subscriptionConn := subscriptionConn[id := i];
    }

    /** Over the connection whose turn it is. */
    method SubscribeNext(param: Param, net: Net, rand: nat -> int) returns (r: Result<Id>, i: int)
      requires Shape() && CanCall() && Fair(rand) && (eth && net.Replies? ==> net.msg.result.VStr?)
      modifies this`connIdx, Objs(), idGen
      ensures 0 <= i < |conns| && OnlyChanged(i)
      ensures r.Ok? <==> param !in old(Maps())[i].byParam && old(Next(net)).Replies?
      ensures Maps() == if r.Ok? then old(Maps())[i := old(Maps())[i].Register(param, r.value)] else old(Maps())
      ensures if r.Ok? then Gained(eth, net, old(idGen.Live()), idGen.Live(), r.value)
              else idGen.Live() == old(idGen.Live())
    {
      i := GetConnection();
      r := SubscribeOver(i, param, net, rand);
    }

    /** Over connection `i`. */
    method SubscribeOver(i: int, param: Param, net: Net, rand: nat -> int) returns (r: Result<Id>)
      requires Shape() && 0 <= i < |conns| && Fair(rand) && |idGen.Live()| < MAX_INT32
      requires eth && net.Replies? ==> net.msg.result.VStr?
      modifies Objs(), idGen
      ensures OnlyChanged(i)
      ensures r.Ok? <==> param !in old(Maps())[i].byParam && old(conns[i].Via(net)).Replies?
      ensures Maps() == if r.Ok? then old(Maps())[i := old(Maps())[i].Register(param, r.value)] else old(Maps())
      ensures if r.Ok? then Gained(eth, net, old(idGen.Live()), idGen.Live(), r.value)
              else idGen.Live() == old(idGen.Live())
    {
      ghost var maps := Maps();
      r := conns[i].Subscribe(param, net, rand);
      assert forall j :: 0 <= j < |conns| && j != i ==> conns[j].Conn() != conns[i].Conn();
      assert Maps() == if r.Ok? then maps[i := maps[i].Register(param, r.value)] else maps;
    }

    method Unsubscribe(subID: Id, net: Net, rand: nat -> int) returns (ok: bool)
      requires Shape() && Fair(rand)
      requires subID in subscriptionConn ==> 0 <= subscriptionConn[subID] < |conns| && |idGen.Live()| < MAX_INT32
      modifies this, Objs(), idGen
      ensures connIdx == old(connIdx) && (forall i :: 0 <= i < |conns| ==> conns[i].Open() == old(conns[i].Open()))
      ensures ok <==> subID in old(Model()).conn && old(Over(subID, net)).Replies?
      ensures !ok ==> Model() == old(Model()) && Maps() == old(Maps()) && idGen.Live() == old(idGen.Live())
      ensures ok ==>
        var c := old(Model()).conn[subID];
        && Model() == old(Model()).Remove(subID)
        && Maps() == old(Maps())[c := old(Maps())[c].Forget(old(Maps())[c].ParamOf(subID), subID)]
        && idGen.Live() == if eth then old(idGen.Live()) else old(idGen.Live()) - {subID.text}
    {
      if subID !in subscriptionConn {
        return false;
      }
      var c := subscriptionConn[subID];
      ok := UnsubscribeOver(c, subID, net, rand);
      if ok {
        Erase(subID);
      }
    }

    method Erase(id: Id)
      modifies this`subscriptionParam, this`subscriptionID, this`subscriptionConn
      ensures Model() == old(Model()).Remove(id) && Maps() == old(Maps())
      ensures forall d :: 0 <= d < |conns| ==> conns[d].Open() == old(conns[d].Open())
    {
      var param := if id in subscriptionParam then subscriptionParam[id] else NoName;
      subscriptionConn := subscriptionConn - {id};
      subscriptionID := subscriptionID - {param};
      subscriptionParam := subscriptionParam - {id};
    }

    method UnsubscribeOver(i: int, subID: Id, net: Net, rand: nat -> int) returns (ok: bool)
      requires Shape() && 0 <= i < |conns| && Fair(rand) && |idGen.Live()| < MAX_INT32
      modifies Objs(), idGen
      ensures OnlyChanged(i)
      ensures ok == old(conns[i].Via(net)).Replies?
      ensures
        var maps := old(Maps());
        Maps() == if ok then maps[i := maps[i].Forget(maps[i].ParamOf(subID), subID)] else maps
      ensures idGen.Live() == if ok && !eth then old(idGen.Live()) - {subID.text} else old(idGen.Live())
    {
      ghost var maps := Maps();
      ok := conns[i].Unsubscribe(subID, net, rand);
      assert forall j :: 0 <= j < |conns| && j != i ==> conns[j].Conn() != conns[i].Conn();
      assert Maps() == if ok then maps[i := maps[i].Forget(maps[i].ParamOf(subID), subID)] else maps;
    }

    method MakeRequest(msg: Msg, net: Net, rand: nat -> int) returns (r: Result<Msg>)
      requires Shape() && CanCall() && Fair(rand)
      modifies this`connIdx, Objs(), idGen
      ensures r == Outcome(msg, old(Next(net)))
      ensures Maps() == old(Maps()) && idGen.Live() == old(idGen.Live())
    {
      var c := GetConnection();
      r := conns[c].MakeRequest(msg, net, rand);
      assert forall j :: 0 <= j < |conns| && j != c ==> conns[j].Conn() != conns[c].Conn();
      assert OnlyChanged(c);
    }
  }

  /** A Cosmos subscription takes a fresh id and keeps it drawn, an Ethereum one takes the node's id. */
  ghost predicate Gained(eth: bool, net: Net, before: set<string>, after: set<string>, x: Id) {
    if eth then net.Replies? && net.msg.result.VStr? && x == Name(net.msg.result.s) && after == before
    else x.text !in before && after == before + {x.text}
  }
}
