/** A batch of requests: what is denied, what is cached, what goes upstream, and how the replies find
    their way back into request order. */
module Batch {
  import opened Messages
  import opened Rules
  import opened Caching

  /** A decoded request.  Two requests of a batch may be equal and are still two objects. */
  class Request {
    const msg: Msg

    constructor (msg: Msg)
      ensures this.msg == msg
    {
      this.msg := msg;
    }
  }

  /** The value of one entry of the list of responses. */
  datatype Slot = Slot(request: Request, response: Option<Msg>, cache: Option<RuleCache>, key: Key)
  {
    /** There is a response that the rule's settings let into the cache. */
    predicate Keeps() {
      response.Some? && cache.Some? && cache.value.enable && MayStore(cache.value, response.value)
    }
  }

  /** How many of the first `n` slots have no response. */
  function Rank(slots: seq<Slot>, n: nat): nat
    requires n <= |slots|
  {
    if n == 0 then 0 else Rank(slots, n - 1) + (if slots[n - 1].response.None? then 1 else 0)
  }

  /** The requests among the first `n` that wait for a response, in order. */
  function Pending(slots: seq<Slot>, n: nat): (ps: seq<Request>)
    requires n <= |slots|
    ensures |ps| == Rank(slots, n)
  {
    if n == 0 then []
    else Pending(slots, n - 1) + (if slots[n - 1].response.None? then [slots[n - 1].request] else [])
  }

  /** The responses among the first `n`, in order. */
  function Answers(slots: seq<Slot>, n: nat): seq<Msg>
    requires n <= |slots|
  {
    if n == 0 then []
    else Answers(slots, n - 1) + (if slots[n - 1].response.Some? then [slots[n - 1].response.value] else [])
  }

  /** Waiting slot number `k` takes reply number `k`. */
  function Filled(slots: seq<Slot>, replies: seq<Msg>): (filled: seq<Slot>)
    requires |replies| == Rank(slots, |slots|)
    ensures |filled| == |slots|
  {
    seq(|slots|, i requires 0 <= i < |slots| =>
      if slots[i].response.None? then
        RankGrows(slots, i, |slots|);
        slots[i].(response := Some(replies[Rank(slots, i)]))
      else slots[i])
  }

  lemma {:induction false} RankGrows(slots: seq<Slot>, i: nat, n: nat)
    requires i <= n <= |slots|
    ensures Rank(slots, i) <= Rank(slots, n)
    ensures i < n && slots[i].response.None? ==> Rank(slots, i) < Rank(slots, n)
  {
    if i < n {
      RankGrows(slots, i, n - 1);
    }
  }

  /** Waiting slot `i` is request number `Rank(slots, i)` of the pending list. */
  lemma {:induction false} PendingAt(slots: seq<Slot>, i: nat, n: nat)
    requires i < n <= |slots| && slots[i].response.None?
    ensures Rank(slots, i) < |Pending(slots, n)| && Pending(slots, n)[Rank(slots, i)] == slots[i].request
  {
    if i < n - 1 {
      PendingAt(slots, i, n - 1);
    }
  }

  /** Every pending request is that of a waiting slot. */
  lemma {:induction false} SlotOfPending(slots: seq<Slot>, k: nat, n: nat) returns (i: nat)
    requires n <= |slots| && k < Rank(slots, n)
    ensures i < n && slots[i].response.None? && Rank(slots, i) == k && Pending(slots, n)[k] == slots[i].request
  {
    if k < Rank(slots, n - 1) {
      i := SlotOfPending(slots, k, n - 1);
    } else {
      i := n - 1;
    }
  }

  /** The answered slots keep their order: slot `i` comes after the answered ones before it, and there
      is nothing else among the answers. */
  lemma {:induction false} AnswersAt(slots: seq<Slot>, i: nat, n: nat)
    requires i < n <= |slots|
    ensures |Answers(slots, n)| == n - Rank(slots, n)
    ensures slots[i].response.Some? ==>
      0 <= i - Rank(slots, i) < |Answers(slots, n)| && Answers(slots, n)[i - Rank(slots, i)] == slots[i].response.value
  {
    AnswersCount(slots, n);
    if i < n - 1 {
      AnswersAt(slots, i, n - 1);
    } else {
      AnswersCount(slots, n - 1);
    }
  }

  lemma {:induction false} AnswersCount(slots: seq<Slot>, n: nat)
    requires n <= |slots|
    ensures Rank(slots, n) <= n && |Answers(slots, n)| == n - Rank(slots, n)
  {
    if n > 0 {
      AnswersCount(slots, n - 1);
    }
  }

  /** With every slot answered the answers are in slot order, one for each. */
  lemma {:induction false} AnswersOfFull(slots: seq<Slot>, n: nat)
    requires n <= |slots| && (forall i :: 0 <= i < n ==> slots[i].response.Some?)
    ensures |Answers(slots, n)| == n
    ensures forall i :: 0 <= i < n ==> Answers(slots, n)[i] == slots[i].response.value
  {
    if n > 0 {
      AnswersOfFull(slots, n - 1);
    }
  }

  class Entry {
    const request: Request
    var response: Option<Msg>
    const cache: Option<RuleCache>
    const cacheKey: Key

    constructor (request: Request, response: Option<Msg>, cache: Option<RuleCache>, cacheKey: Key)
      ensures this.request == request && this.response == response && this.cache == cache && this.cacheKey == cacheKey
    {
      this.request, this.response, this.cache, this.cacheKey := request, response, cache, cacheKey;
    }

    ghost function Value(): Slot
      reads this
    {
      Slot(request, response, cache, cacheKey)
    }
  }

  ghost predicate DistinctRequests(entries: seq<Entry>) {
    forall i, j :: 0 <= i < j < |entries| ==> entries[i].request != entries[j].request
  }

  class JsonRpcResponses {
    var entries: seq<Entry>

    ghost function Slots(): (slots: seq<Slot>)
      reads this, entries
      ensures |slots| == |entries|
    {
      seq(|entries|, i requires 0 <= i < |entries| reads this, entries => entries[i].Value())
    }

    ghost function Nodes(): set<Entry>
      reads this
    {
      set e | e in entries
    }

    ghost predicate Distinct()
      reads this
    {
      forall i, j :: 0 <= i < j < |entries| ==> entries[i] != entries[j]
    }

    constructor ()
      ensures entries == [] && Slots() == []
    {
      entries := [];
    }

    method Append(request: Request, response: Option<Msg>, cache: Option<RuleCache>, key: Key)
      requires Distinct()
      modifies this
      ensures Distinct() && (forall e :: e in entries ==> e in old(entries) || fresh(e))
      ensures Slots() == old(Slots()) + [Slot(request, response, cache, key)]
    {
      var e := new Entry(request, response, cache, key);
      entries := entries + [e];
    }

    method AddPending(request: Request)
      requires Distinct()
      modifies this
      ensures Distinct() && (forall e :: e in entries ==> e in old(entries) || fresh(e))
      ensures Slots() == old(Slots()) + [Slot(request, None, None, 0)]
    {
      Append(request, None, None, 0);
    }

    method AddResponse(request: Request, response: Msg)
      requires Distinct()
      modifies this
      ensures Distinct() && (forall e :: e in entries ==> e in old(entries) || fresh(e))
      ensures Slots() == old(Slots()) + [Slot(request, Some(response.CloneWithID(request.msg.id)), None, 0)]
    {
      Append(request, Some(response.CloneWithID(request.msg.id)), None, 0);
    }

    method AddPendingWithCacheConfig(request: Request, key: Key, config: Option<RuleCache>)
      requires Distinct()
      modifies this
      ensures Distinct() && (forall e :: e in entries ==> e in old(entries) || fresh(e))
      ensures Slots() == old(Slots()) + [Slot(request, None, config, key)]
    {
      Append(request, None, config, key);
    }

    method Deny(request: Request)
      requires Distinct()
      modifies this
      ensures Distinct() && (forall e :: e in entries ==> e in old(entries) || fresh(e))
      ensures Slots() == old(Slots()) + [Slot(request, Some(UnauthorizedResponse(request.msg)), None, 0)]
      ensures
        var reply := Slots()[|old(Slots())|].response;
        && reply.Some? && reply.value.id == request.msg.id && reply.value.result == VNull
        && reply.value.error.Some? && reply.value.error.value.code == 401
    {
      Append(request, Some(UnauthorizedResponse(request.msg)), None, 0);
    }

    method GetPendingRequests() returns (requests: seq<Request>)
      ensures requests == Pending(Slots(), |entries|)
    {
      requests := [];
      for i := 0 to |entries|
        invariant requests == Pending(Slots(), i)
      {
        if entries[i].response.None? {
          requests := requests + [entries[i].request];
        }
      }
    }

    method GetFinal() returns (responses: seq<Msg>)
      ensures responses == Answers(Slots(), |entries|)
    {
      responses := [];
      for i := 0 to |entries|
        invariant responses == Answers(Slots(), i)
      {
        if entries[i].response.Some? {
          responses := responses + [entries[i].response.value];
        }
      }
    }

    /** The first entry of that very request object. */
    method Find(request: Request) returns (e: Entry?)
      ensures e == null ==> forall i :: 0 <= i < |entries| ==> entries[i].request != request
      ensures e != null ==> e in entries && e.request == request
    {
      for i := 0 to |entries|
        invariant forall j :: 0 <= j < i ==> entries[j].request != request
      {
        if entries[i].request == request {
          return entries[i];
        }
      }
      e := null;
    }

    /** Replies are scattered by request identity; with the pending list that puts them in order. */
    method Set(requests: seq<Request>, responses: seq<Msg>)
      requires Distinct()
      requires DistinctRequests(entries)
      requires requests == Pending(Slots(), |entries|) && |responses| == |requests|
      modifies Nodes()
      ensures Slots() == Filled(old(Slots()), responses)
    {
      ghost var before := Slots();
      for k := 0 to |requests|
        invariant forall i :: 0 <= i < |entries| ==> entries[i].response == Scattered(before, responses, k, i)
      {
        ghost var i := SlotOfPending(before, k, |before|);
        var res := Find(requests[k]);
        assert res == entries[i];
        if res != null {
          res.response := Some(responses[k]);
        }
        forall j | 0 <= j < |before| && before[j].response.None?
          ensures Rank(before, j) == k ==> j == i
        {
          RanksDiffer(before, i, j);
        }
      }
      forall i | 0 <= i < |before|
        ensures Slots()[i] == Filled(before, responses)[i]
      {
        RankGrows(before, i, |before|);
      }
    }

    /** One turn of the loop below. */
    method StoreEntry(e: Entry, cache: ResponseCache, fails: bool) returns (ok: bool)
      modifies cache
      ensures ok <==> !(e.Value().Keeps() && fails)
      ensures
        cache.entries ==
        if e.Value().Keeps() && !fails then old(cache.entries)[e.cacheKey := e.response.value] else old(cache.entries)
    {
      ok := true;
      if e.response.Some? && e.cache.Some? && e.cache.value.enable {
        if MayStore(e.cache.value, e.response.value) {
          ok := cache.Set(e.cacheKey, e.response.value, fails);
        }
      }
    }

    /** The first write that fails ends the loop; `fails` tells which would. */
    method StoreInCache(cache: ResponseCache, fails: nat -> bool) returns (ok: bool)
      modifies cache
      ensures Slots() == old(Slots())
      ensures
        var reached := Reached(old(Slots()), fails, |entries|);
        cache.entries == Stored(old(cache.entries), old(Slots()), reached) && (ok <==> reached == |entries|)
    {
      ghost var slots := Slots();
      for i := 0 to |entries|
        invariant Slots() == slots
        invariant Reached(slots, fails, i) == i && cache.entries == Stored(old(cache.entries), slots, i)
      {
        assert slots[i] == entries[i].Value();
        ok := StoreEntry(entries[i], cache, fails(i));
        if !ok {
          StaysReached(slots, fails, i + 1, |entries|);
          return;
        }
      }
      ok := true;
    }
  }

  /** The response of slot `i` once the first `k` replies are scattered. */
  function Scattered(slots: seq<Slot>, replies: seq<Msg>, k: nat, i: nat): Option<Msg>
    requires i < |slots| && k <= |replies|
  {
    if slots[i].response.None? && Rank(slots, i) < k then Some(replies[Rank(slots, i)]) else slots[i].response
  }

  lemma RanksDiffer(slots: seq<Slot>, i: nat, j: nat)
    requires i < |slots| && j < |slots| && slots[i].response.None? && slots[j].response.None?
    ensures Rank(slots, i) == Rank(slots, j) ==> i == j
  {
    if i < j {
      RankGrows(slots, i, j);
    } else if j < i {
      RankGrows(slots, j, i);
    }
  }

  /** The cache once the first `n` slots have been offered to it. */
  function Stored(cache: map<Key, Msg>, slots: seq<Slot>, n: nat): map<Key, Msg>
    requires n <= |slots|
  {
    if n == 0 then cache
    else
      var before := Stored(cache, slots, n - 1);
      if slots[n - 1].Keeps() then before[slots[n - 1].key := slots[n - 1].response.value] else before
  }

  /** How many of the first `n` slots are offered until a write fails. */
  function Reached(slots: seq<Slot>, fails: nat -> bool, n: nat): (m: nat)
    requires n <= |slots|
    ensures m <= n && (m < n ==> slots[m].Keeps() && fails(m))
    ensures forall i :: 0 <= i < m && slots[i].Keeps() ==> !fails(i)
  {
    if n == 0 then 0
    else
      var m := Reached(slots, fails, n - 1);
      if m < n - 1 || (slots[m].Keeps() && fails(m)) then m else n
  }

  lemma {:induction false} StaysReached(slots: seq<Slot>, fails: nat -> bool, n: nat, more: nat)
    requires n <= more <= |slots| && Reached(slots, fails, n) < n
    ensures Reached(slots, fails, more) == Reached(slots, fails, n)
  {
    if n < more {
      StaysReached(slots, fails, n, more - 1);
    }
  }
}
