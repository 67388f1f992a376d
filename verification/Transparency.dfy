/** Batching and caching are invisible: against a node that answers as a function of method and
    parameters, the three loops reply what a proxy with neither would reply. */
module Transparency {
  import opened Messages
  import opened Rules
  import opened Priority
  import opened Caching
  import opened Batch
  import opened Handlers
  import opened Upstream
  import opened WebSocket

  /** The rules in force and the shared cache. */
  datatype Setup = Setup(env: Env, rules: seq<Rule>, default: Action, cache: map<Key, Msg>)
  {
    ghost predicate BatchPermits(req: Msg) {
      Priority.BatchPermits(rules, default, env.Hits(req))
    }

    ghost predicate LoopPermits(req: Msg) {
      Priority.LoopPermits(rules, default, env.Hits(req))
    }

    /** The request is served from the cache when it comes in a batch. */
    ghost predicate BatchHit(req: Msg, fault: Fault) {
      var first := FirstHit(rules, env.Hits(req));
      first.Some? && first.value.action.Allow? && Cached(env, cache, req, fault).Some?
    }

    ghost function Slots(requests: seq<Request>, faults: nat -> Fault): (slots: seq<Slot>)
      ensures |slots| == |requests|
    {
      SlotsOf(env, rules, default, cache, requests, faults, |requests|)
    }

    ghost function Single(req: Msg, fault: Fault): Verdict {
      SingleVerdict(env, rules, default, cache, req, fault)
    }

    ghost function Socket(req: Msg, fault: Fault): Verdict {
      SocketVerdict(env, rules, default, cache, req, fault)
    }
  }

  predicate Increasing(at: seq<nat>) {
    forall j, k :: 0 <= j < k < |at| ==> at[j] < at[k]
  }

  // ----- scatter and gather

  /** A request waits for upstream exactly when it is permitted and not served from the cache. */
  lemma WaitsIff(s: Setup, requests: seq<Request>, faults: nat -> Fault, i: nat)
    requires i < |requests|
    ensures
      var slot := s.Slots(requests, faults)[i];
      && slot.request == requests[i]
      && (slot.response.None? <==> s.BatchPermits(requests[i].msg) && !s.BatchHit(requests[i].msg, faults(i)))
      && (slot.response.Some? ==>
            slot.response == if s.BatchPermits(requests[i].msg) then Cached(s.env, s.cache, requests[i].msg, faults(i))
                             else Some(UnauthorizedResponse(requests[i].msg)))
  {
    assert s.Slots(requests, faults)[i] == SlotOf(s.env, s.rules, s.default, s.cache, requests[i], faults(i));
  }

  /** The counters of a batch: permitted and refused requests add up to the batch, and what goes upstream are
      the permitted less those served from the cache. */
  lemma CountersAddUp(s: Setup, requests: seq<Request>, faults: nat -> Fault)
    ensures
      var slots := s.Slots(requests, faults);
      var counts := CountsOf(s.env, s.rules, s.default, slots, |slots|);
      counts.allowed + counts.denied == |requests| && |Pending(slots, |slots|)| == counts.allowed - counts.hits
  {
    var slots := s.Slots(requests, faults);
    forall i | 0 <= i < |slots| && !s.BatchPermits(slots[i].request.msg)
      ensures slots[i].response.Some?
    {
      WaitsIff(s, requests, faults, i);
    }
    CountsAddUp(s.env, s.rules, s.default, slots, |slots|);
  }

  lemma {:induction false} PendingPlaces(slots: seq<Slot>, n: nat) returns (at: seq<nat>)
    requires n <= |slots|
    ensures |at| == |Pending(slots, n)| && Increasing(at)
    ensures forall k :: 0 <= k < |at| ==> at[k] < n && Pending(slots, n)[k] == slots[at[k]].request
    ensures forall i :: 0 <= i < n ==> (i in at <==> slots[i].response.None?)
  {
    at := [];
    if n > 0 {
      at := PendingPlaces(slots, n - 1);
      if slots[n - 1].response.None? {
        at := at + [n - 1];
      }
    }
  }

  /** What goes upstream are the permitted requests that the cache does not serve, each once and in
      request order: no denied request is forwarded. */
  lemma ForwardedInOrder(s: Setup, requests: seq<Request>, faults: nat -> Fault) returns (at: seq<nat>)
    ensures
      var pending := Pending(s.Slots(requests, faults), |requests|);
      && |at| == |pending| && Increasing(at)
      && (forall k :: 0 <= k < |at| ==> at[k] < |requests| && pending[k] == requests[at[k]])
      && (forall i :: 0 <= i < |requests| ==>
            (i in at <==> s.BatchPermits(requests[i].msg) && !s.BatchHit(requests[i].msg, faults(i))))
  {
    var slots := s.Slots(requests, faults);
    at := PendingPlaces(slots, |requests|);
    forall i | 0 <= i < |requests|
      ensures slots[i].request == requests[i]
      ensures i in at <==> s.BatchPermits(requests[i].msg) && !s.BatchHit(requests[i].msg, faults(i))
    {
      WaitsIff(s, requests, faults, i);
    }
  }

  /** With one reply for each pending request, output `i` answers request `i`. */
  lemma OutputAnswersRequests(s: Setup, requests: seq<Request>, faults: nat -> Fault, replies: seq<Msg>)
    requires |replies| == |Pending(s.Slots(requests, faults), |requests|)|
    ensures
      var slots := s.Slots(requests, faults);
      var out := Answers(Filled(slots, replies), |requests|);
      && |out| == |requests|
      && (forall i :: 0 <= i < |requests| && slots[i].response.Some? ==> out[i] == slots[i].response.value)
      && (forall i :: 0 <= i < |requests| && slots[i].response.None? ==>
            Rank(slots, i) < |replies| && out[i] == replies[Rank(slots, i)])
  {
    var slots := s.Slots(requests, faults);
    var filled := Filled(slots, replies);
    forall i | 0 <= i < |requests|
      ensures filled[i].response.Some?
      ensures slots[i].response.Some? ==> filled[i] == slots[i]
      ensures slots[i].response.None? ==>
        Rank(slots, i) < |replies| && filled[i].response == Some(replies[Rank(slots, i)])
    {
      RankGrows(slots, i, |slots|);
    }
    AnswersOfFull(filled, |requests|);
  }

  lemma {:induction false} AnswerPlaces(slots: seq<Slot>, n: nat) returns (at: seq<nat>)
    requires n <= |slots|
    ensures |at| == |Answers(slots, n)| && Increasing(at)
    ensures forall k :: 0 <= k < |at| ==> at[k] < n && Some(Answers(slots, n)[k]) == slots[at[k]].response
    ensures forall i :: 0 <= i < n ==> (i in at <==> slots[i].response.Some?)
  {
    at := [];
    if n > 0 {
      at := AnswerPlaces(slots, n - 1);
      if slots[n - 1].response.Some? {
        at := at + [n - 1];
      }
    }
  }

  /** With any other number of replies the client reads exactly the refusals and the cached replies,
      in request order, and nothing is stored. */
  lemma MismatchLeavesThePendingOut(s: Setup, requests: seq<Request>, faults: nat -> Fault,
                                    next: seq<Msg> -> Result<seq<Msg>>, fails: nat -> bool) returns (at: seq<nat>)
    requires
      var pending := Pending(s.Slots(requests, faults), |requests|);
      pending != [] && next(Bodies(pending)).Ok? && |next(Bodies(pending)).value| != |pending|
    ensures
      var slots := s.Slots(requests, faults);
      var out := BatchOut(slots, next);
      && BatchCache(s.cache, slots, next, fails) == s.cache
      && out.Ok? && |at| == |out.value| && Increasing(at)
      && (forall k :: 0 <= k < |at| ==> at[k] < |requests| && Some(out.value[k]) == slots[at[k]].response)
      && (forall i :: 0 <= i < |requests| ==>
            (i in at <==> !s.BatchPermits(requests[i].msg) || s.BatchHit(requests[i].msg, faults(i))))
  {
    at := AnswerPlaces(s.Slots(requests, faults), |requests|);
    forall i | 0 <= i < |requests|
      ensures i in at <==> !s.BatchPermits(requests[i].msg) || s.BatchHit(requests[i].msg, faults(i))
    {
      WaitsIff(s, requests, faults, i);
    }
  }

  // ----- transparency, request by request

  /** The node answers a batch in order and in full. */
  ghost predicate Obliging(node: Node, next: seq<Msg> -> Result<seq<Msg>>) {
    forall ms :: next(ms).Ok? && |next(ms).value| == |ms|
                 && forall k :: 0 <= k < |ms| ==> next(ms).value[k] == Answer(node, ms[k])
  }

  /** What a waiting slot is filled with is the node's answer to its request. */
  lemma FilledWithAnswers(node: Node, slots: seq<Slot>, next: seq<Msg> -> Result<seq<Msg>>, i: nat)
    requires Obliging(node, next) && i < |slots| && slots[i].response.None?
    ensures
      var replies := next(Bodies(Pending(slots, |slots|))).value;
      && |replies| == Rank(slots, |slots|)
      && Filled(slots, replies)[i] == slots[i].(response := Some(Answer(node, slots[i].request.msg)))
  {
    var pending := Pending(slots, |slots|);
    PendingAt(slots, i, |slots|);
    assert Bodies(pending)[Rank(slots, i)] == pending[Rank(slots, i)].msg;
  }

  /** Every client of a batch reads the plain reply to each of its requests, in order. */
  lemma BatchIsPlain(s: Setup, node: Node, requests: seq<Request>, faults: nat -> Fault,
                     next: seq<Msg> -> Result<seq<Msg>>)
    requires Sound(s.env, node, s.cache) && Obliging(node, next)
    ensures
      var out := BatchOut(s.Slots(requests, faults), next);
      && out.Ok? && |out.value| == |requests|
      && (forall i :: 0 <= i < |requests| ==>
            out.value[i] == Plain(node, requests[i].msg, s.BatchPermits(requests[i].msg)))
  {
    var slots := s.Slots(requests, faults);
    var pending := Pending(slots, |slots|);
    var replies := if pending == [] then [] else next(Bodies(pending)).value;
    OutputAnswersRequests(s, requests, faults, replies);
    if pending == [] {
      forall i | 0 <= i < |slots|
        ensures slots[i].response.Some?
      {
        RankGrows(slots, i, |slots|);
      }
      assert Filled(slots, replies) == slots;
    }
    forall i | 0 <= i < |requests|
      ensures Answers(Filled(slots, replies), |requests|)[i] ==
              Plain(node, requests[i].msg, s.BatchPermits(requests[i].msg))
    {
      WaitsIff(s, requests, faults, i);
      if slots[i].response.Some? {
        CachedIsTheAnswer(s.env, node, s.cache, requests[i].msg, faults(i));
      } else {
        RankGrows(slots, i, |slots|);
        FilledWithAnswers(node, slots, next, i);
      }
    }
  }

  /** Slots that may be stored hold the node's answer under the key of their request. */
  ghost predicate Storable(env: Env, node: Node, slots: seq<Slot>, n: nat)
    requires n <= |slots|
  {
    forall i :: 0 <= i < n && slots[i].cache.Some? && slots[i].response.Some? ==>
      slots[i].key == env.KeyOf(slots[i].request.msg)
      && Payload(slots[i].response.value) == Payload(Answer(node, slots[i].request.msg))
  }

  lemma {:induction false} StoredIsSound(env: Env, node: Node, cache: map<Key, Msg>, slots: seq<Slot>, n: nat)
    requires n <= |slots| && Storable(env, node, slots, n)
    requires Respects(env, node) && Sound(env, node, cache)
    ensures Sound(env, node, Stored(cache, slots, n))
  {
    if n > 0 {
      StoredIsSound(env, node, cache, slots, n - 1);
      if slots[n - 1].response.Some? && slots[n - 1].cache.Some? {
        StoreIsSoundIff(env, node, Stored(cache, slots, n - 1), slots[n - 1].request.msg, slots[n - 1].response.value);
      }
    }
  }

  /** Whichever writes fail. */
  lemma BatchKeepsSound(s: Setup, node: Node, requests: seq<Request>, faults: nat -> Fault,
                        next: seq<Msg> -> Result<seq<Msg>>, fails: nat -> bool)
    requires Respects(s.env, node) && Sound(s.env, node, s.cache) && Obliging(node, next)
    ensures Sound(s.env, node, BatchCache(s.cache, s.Slots(requests, faults), next, fails))
  {
    var slots := s.Slots(requests, faults);
    var replies := next(Bodies(Pending(slots, |slots|))).value;
    forall i | 0 <= i < |slots| && Filled(slots, replies)[i].cache.Some?
      ensures Filled(slots, replies)[i].key == s.env.KeyOf(slots[i].request.msg)
      ensures Filled(slots, replies)[i].response == Some(Answer(node, slots[i].request.msg))
    {
      assert slots[i] == SlotOf(s.env, s.rules, s.default, s.cache, requests[i], faults(i));
      if slots[i].response.None? {
        FilledWithAnswers(node, slots, next, i);
      }
    }
    if |replies| == |Pending(slots, |slots|)| {
      var filled := Filled(slots, replies);
      StoredIsSound(s.env, node, s.cache, filled, Reached(filled, fails, |slots|));
    }
  }

  // ----- what a refused client is told

  /** Whatever is cached and whatever upstream returns: unless the batch fails as a whole, the client reads an
      error 401 under the id of each request that the rules refuse. */
  lemma BatchRefuses(s: Setup, requests: seq<Request>, faults: nat -> Fault, next: seq<Msg> -> Result<seq<Msg>>, i: nat)
    returns (k: nat)
    requires i < |requests| && !s.BatchPermits(requests[i].msg) && BatchOut(s.Slots(requests, faults), next).Ok?
    ensures
      var out := BatchOut(s.Slots(requests, faults), next).value;
      && k < |out| && (|out| == |requests| ==> k == i)
      && out[k].id == requests[i].msg.id && out[k].result == VNull
      && out[k].error.Some? && out[k].error.value.code == 401
  {
    var slots := s.Slots(requests, faults);
    var pending := Pending(slots, |slots|);
    WaitsIff(s, requests, faults, i);
    if pending != [] && |next(Bodies(pending)).value| == |pending| {
      OutputAnswersRequests(s, requests, faults, next(Bodies(pending)).value);
      k := i;
    } else {
      AnswersAt(slots, i, |slots|);
      k := i - Rank(slots, i);
      RankGrows(slots, i, |slots|);
      AnswersCount(slots, i);
    }
  }

  /** From a sound cache the client of a batch reads the node's own message under its id for each request
      that the rules permit. */
  lemma BatchPermitted(s: Setup, node: Node, requests: seq<Request>, faults: nat -> Fault,
                       next: seq<Msg> -> Result<seq<Msg>>, i: nat)
    requires Sound(s.env, node, s.cache) && Obliging(node, next)
    requires i < |requests| && s.BatchPermits(requests[i].msg)
    ensures
      var out := BatchOut(s.Slots(requests, faults), next);
      var req := requests[i].msg;
      out.Ok? && i < |out.value| && out.value[i] == node(req.verb, req.params).(id := req.id)
  {
    BatchIsPlain(s, node, requests, faults, next);
  }

  /** A single request that the rules refuse reads an error 401 under its id, whatever is cached and upstream
      would return; any other reads what upstream returns or what is cached, which from a sound cache is
      the node's own message under its id. */
  lemma SingleRefusesIff(s: Setup, node: Node, req: Msg, fault: Fault, body: Option<Msg>)
    ensures
      var read := Written(s.Single(req, fault), req, body);
      if !s.LoopPermits(req) then
        && read.Some? && read.value.id == req.id && read.value.result == VNull
        && read.value.error.Some? && read.value.error.value.code == 401
      else
        && (read == body
            || (s.env.KeyOf(req) in s.cache && read == Some(s.cache[s.env.KeyOf(req)].(id := req.id))))
        && (Sound(s.env, node, s.cache) && body == Some(node(req.verb, req.params).(id := req.id)) ==> read == body)
  {
    DeciderIsDecisive(s, req);
    if Sound(s.env, node, s.cache) {
      CachedIsTheAnswer(s.env, node, s.cache, req, Fine);
    }
  }

  /** The same of an ordinary request over a WebSocket when the node's message `raw` comes back. */
  lemma SocketRefusesIff(s: Setup, node: Node, req: Msg, fault: Fault, raw: Msg)
    ensures
      var read := SocketReply(s.Socket(req, fault), req, raw);
      if !s.LoopPermits(req) then
        && read.Some? && read.value.id == req.id && read.value.result == VNull
        && read.value.error.Some? && read.value.error.value.code == 401
      else
        && (|| read == Some(raw.(id := req.id)) || (fault.Vanish? && read == None)
            || (s.env.KeyOf(req) in s.cache && read == Some(s.cache[s.env.KeyOf(req)].(id := req.id))))
        && (Sound(s.env, node, s.cache) && raw.(id := req.id) == node(req.verb, req.params).(id := req.id)
              && read.Some? ==>
              read == Some(raw.(id := req.id)))
  {
    DeciderIsDecisive(s, req);
    if Sound(s.env, node, s.cache) {
      CachedIsTheAnswer(s.env, node, s.cache, req, Fine);
    }
  }

  // ----- when the node does not oblige

  /** Of the first `n` slots, slot `i` is the last that is stored under its key. */
  ghost predicate WritesLast(slots: seq<Slot>, n: nat, i: int)
    requires n <= |slots|
  {
    && 0 <= i < n && slots[i].Keeps()
    && (forall j :: i < j < n && slots[j].Keeps() ==> slots[j].key != slots[i].key)
  }

  /** What is stored under a key was there before, or comes from the last slot with that key. */
  lemma {:induction false} StoredUnder(cache: map<Key, Msg>, slots: seq<Slot>, n: nat, key: Key) returns (i: int)
    requires n <= |slots|
    ensures i < n && (i >= 0 ==> WritesLast(slots, n, i) && slots[i].key == key)
    ensures i < 0 ==> forall j :: 0 <= j < n && slots[j].Keeps() ==> slots[j].key != key
    ensures
      var stored := Stored(cache, slots, n);
      if i < 0 then (key in stored <==> key in cache) && (key in cache ==> stored[key] == cache[key])
      else key in stored && stored[key] == slots[i].response.value
  {
    i := -1;
    if n > 0 {
      i := StoredUnder(cache, slots, n - 1, key);
      if slots[n - 1].Keeps() && slots[n - 1].key == key {
        i := n - 1;
      }
    }
  }

  /** Every reply that is stored and not overwritten answers the request of its slot. */
  ghost predicate KeepsAnswers(node: Node, slots: seq<Slot>, n: nat)
    requires n <= |slots|
  {
    forall i :: WritesLast(slots, n, i) ==>
      Payload(slots[i].response.value) == Payload(Answer(node, slots[i].request.msg))
  }

  /** Storing keeps the cache sound exactly then. */
  lemma StoredIsSoundIff(env: Env, node: Node, cache: map<Key, Msg>, slots: seq<Slot>, n: nat)
    requires n <= |slots| && Respects(env, node) && Sound(env, node, cache)
    requires forall i :: 0 <= i < n && slots[i].Keeps() ==> slots[i].key == env.KeyOf(slots[i].request.msg)
    ensures Sound(env, node, Stored(cache, slots, n)) <==> KeepsAnswers(node, slots, n)
  {
    var stored := Stored(cache, slots, n);
    forall i | Sound(env, node, stored) && WritesLast(slots, n, i)
      ensures Payload(slots[i].response.value) == Payload(Answer(node, slots[i].request.msg))
    {
      var k := StoredUnder(cache, slots, n, slots[i].key);
      assert k == i;
      assert env.key(slots[i].request.msg.verb, slots[i].request.msg.params) in stored;
    }
    forall verb, params | KeepsAnswers(node, slots, n) && env.key(verb, params) in stored
      ensures Payload(stored[env.key(verb, params)]) == Payload(node(verb, params))
    {
      var i := StoredUnder(cache, slots, n, env.key(verb, params));
      if i >= 0 {
        var msg := slots[i].request.msg;
        assert env.key(msg.verb, msg.params) == env.key(verb, params);
      }
    }
  }

  /** Whatever replies come back for a batch, in whatever order, and whichever writes fail: the cache stays
      sound exactly when every reply that is stored and not overwritten answers the request to which it
      is scattered. */
  lemma BatchKeepsSoundIff(s: Setup, node: Node, requests: seq<Request>, faults: nat -> Fault, replies: seq<Msg>,
                           fails: nat -> bool)
    requires Respects(s.env, node) && Sound(s.env, node, s.cache)
    requires |replies| == |Pending(s.Slots(requests, faults), |requests|)| > 0
    ensures
      var filled := Filled(s.Slots(requests, faults), replies);
      Sound(s.env, node, BatchCache(s.cache, s.Slots(requests, faults), _ => Ok(replies), fails)) <==>
      KeepsAnswers(node, filled, Reached(filled, fails, |requests|))
  {
    var filled := Filled(s.Slots(requests, faults), replies);
    forall i | 0 <= i < |filled| && filled[i].Keeps()
      ensures filled[i].key == s.env.KeyOf(filled[i].request.msg)
    {
      KeptIsScattered(s, requests, faults, replies, i);
    }
    StoredIsSoundIff(s.env, node, s.cache, filled, Reached(filled, fails, |requests|));
  }

  /** What is stored for request `i` of a batch is the reply that was scattered to it. */
  lemma KeptIsScattered(s: Setup, requests: seq<Request>, faults: nat -> Fault, replies: seq<Msg>, i: nat)
    requires |replies| == |Pending(s.Slots(requests, faults), |requests|)| && i < |requests|
    ensures
      var slots := s.Slots(requests, faults);
      var slot := Filled(slots, replies)[i];
      slot.Keeps() ==>
        && slot.request == requests[i] && slot.key == s.env.KeyOf(requests[i].msg)
        && Rank(slots, i) < |replies| && slot.response == Some(replies[Rank(slots, i)])
  {
    var slots := s.Slots(requests, faults);
    assert slots[i] == SlotOf(s.env, s.rules, s.default, s.cache, requests[i], faults(i));
    RankGrows(slots, i, |slots|);
  }

  /** A single request over HTTP reads the plain reply and leaves the cache sound. */
  lemma SingleIsPlain(s: Setup, node: Node, req: Msg, fault: Fault)
    requires Sound(s.env, node, s.cache)
    ensures
      var v := s.Single(req, fault);
      && Written(v, req, Some(Answer(node, req))) == Some(Plain(node, req, s.LoopPermits(req)))
      && (Respects(s.env, node) ==> Sound(s.env, node, Offered(s.cache, v, s.env.KeyOf(req), Answer(node, req))))
  {
    DeciderIsDecisive(s, req);
    CachedIsTheAnswer(s.env, node, s.cache, req, fault);
    if Respects(s.env, node) {
      StoreIsSoundIff(s.env, node, s.cache, req, Answer(node, req));
    }
  }

  /** After a single request was answered by upstream, the next request with that method and those parameters is
      replayed the body under its own id, exactly when the rule's settings let the body in and the write
      succeeded; else it is decided as if the first had not been.  From a sound cache and the node's own
      answer the write leaves the cache sound. */
  lemma NextSingleIsReplayedIff(s: Setup, node: Node, req: Msg, fault: Fault, body: Msg, fails: bool, next: Msg)
    requires s.Single(req, fault).Ask? && s.Single(req, fault).config.Some?
    requires next.verb == req.verb && next.params == req.params
    ensures
      var v := s.Single(req, fault);
      var cache := if fails then s.cache else Offered(s.cache, v, s.env.KeyOf(req), Parsed(Some(body)));
      && s.(cache := cache).Single(next, Fine) ==
         (if || fails || (body.error.Some? && !v.config.value.cacheError)
             || (body.result == VNull && !v.config.value.cacheEmptyResult)
          then s.Single(next, Fine) else Replay(body.(id := next.id)))
      && (Respects(s.env, node) && Sound(s.env, node, s.cache) && body == node(req.verb, req.params).(id := req.id) ==>
            Sound(s.env, node, cache))
  {
    SameDecider(s.env, s.rules, req, next);
    if Respects(s.env, node) && Sound(s.env, node, s.cache) {
      StoreIsSoundIff(s.env, node, s.cache, req, body);
    }
  }

  /** An ordinary request over a WebSocket reads the plain reply, unless its entry vanishes between
      test and read, and leaves the cache sound. */
  lemma SocketIsPlain(s: Setup, node: Node, req: Msg, fault: Fault, raw: Msg)
    requires Sound(s.env, node, s.cache) && raw.CloneWithID(req.id) == Answer(node, req)
    ensures
      var v := s.Socket(req, fault);
      var reply := SocketReply(v, req, raw);
      && reply == (if v.GiveUp? then None else Some(Plain(node, req, s.LoopPermits(req))))
      && (v.GiveUp? ==> fault.Vanish?)
      && (Respects(s.env, node) ==> Sound(s.env, node, OfferedTo(s.cache, v, s.env.KeyOf(req), reply)))
  {
    DeciderIsDecisive(s, req);
    CachedIsTheAnswer(s.env, node, s.cache, req, fault);
    if Respects(s.env, node) {
      StoreIsSoundIff(s.env, node, s.cache, req, Answer(node, req));
    }
  }

  /** What an ordinary request over a WebSocket reads when the node's message `raw` comes back. */
  function SocketReply(v: Verdict, req: Msg, raw: Msg): Option<Msg> {
    match v
    case GiveUp => None
    case Replay(reply) => Some(reply)
    case Refuse => Some(UnauthorizedResponse(req))
    case Ask(_) => Delivered(req, Replies(raw))
  }

  lemma DeciderIsDecisive(s: Setup, req: Msg)
    ensures
      var decider := FirstDecisive(s.rules, s.env.Hits(req));
      decider.Some? ==> Decisive(decider.value)
  {
    var i := FirstHitAt(s.rules, (r: Rule) => s.env.Hits(req)(r) && Decisive(r));
  }

  /** The same request reads the same reply in a batch, alone over HTTP and over a WebSocket, each
      with a sound cache of its own, when rules only allow or deny. */
  lemma ThreeLoopsOneReply(s: Setup, one: map<Key, Msg>, two: map<Key, Msg>, node: Node, requests: seq<Request>,
                           faults: nat -> Fault, next: seq<Msg> -> Result<seq<Msg>>, i: nat, fault: Fault)
    requires forall r :: r in s.rules ==> Decisive(r)
    requires Sound(s.env, node, s.cache) && Sound(s.env, node, one) && Sound(s.env, node, two)
    requires Obliging(node, next) && i < |requests|
    ensures
      var req := requests[i].msg;
      var out := BatchOut(s.Slots(requests, faults), next);
      && out.Ok? && |out.value| == |requests|
      && Some(out.value[i]) == Written(s.(cache := one).Single(req, fault), req, Some(Answer(node, req)))
      && Some(out.value[i]) == SocketReply(s.(cache := two).Socket(req, Fine), req, Answer(node, req))
  {
    var req := requests[i].msg;
    BatchIsPlain(s, node, requests, faults, next);
    SingleIsPlain(s.(cache := one), node, req, fault);
    SocketIsPlain(s.(cache := two), node, req, Fine, Answer(node, req));
    LoopsAgree(s.rules, s.default, s.env.Hits(req));
  }

  ghost predicate OnlyAllowOrDeny(rules: seq<Rule>) {
    forall r :: r in rules ==> Decisive(r)
  }

  // ----- where the loops treat the cache differently

  /** A batch reads the cache for every rule that allows, the other loops only for a rule with a cache
      configuration: they serve a request from the cache alike exactly when the rule has one or the
      cache has no entry. */
  lemma ReadTheCacheAlikeIff(s: Setup, req: Msg)
    requires OnlyAllowOrDeny(s.rules)
    requires FirstHit(s.rules, s.env.Hits(req)).Some? && FirstHit(s.rules, s.env.Hits(req)).value.action.Allow?
    ensures (s.BatchHit(req, Fine) <==> s.Single(req, Fine).Replay?) <==>
            FirstHit(s.rules, s.env.Hits(req)).value.cache.Some? || s.env.KeyOf(req) !in s.cache
  {
    LoopsAgree(s.rules, s.default, s.env.Hits(req));
  }

  /** A batch does not store for a rule whose cache is switched off, the other loops do: a reply that
      may be stored is stored alike exactly when the cache is switched on, or holds it already. */
  lemma StoreAlikeIff(s: Setup, request: Request, reply: Msg)
    requires OnlyAllowOrDeny(s.rules)
    requires
      var first := FirstHit(s.rules, s.env.Hits(request.msg));
      first.Some? && first.value.action.Allow? && first.value.cache.Some? && MayStore(first.value.cache.value, reply)
    ensures
      var key := s.env.KeyOf(request.msg);
      var batched := BatchCache(s.cache, s.Slots([request], _ => Miss), _ => Ok([reply]), _ => false);
      var single := Offered(s.cache, s.Single(request.msg, Miss), key, reply);
      batched == single <==>
      FirstHit(s.rules, s.env.Hits(request.msg)).value.cache.value.enable || (key in s.cache && s.cache[key] == reply)
  {
    LoopsAgree(s.rules, s.default, s.env.Hits(request.msg));
    var key := s.env.KeyOf(request.msg);
    var slots := s.Slots([request], _ => Miss);
    WaitsIff(s, [request], _ => Miss, 0);
    assert slots[0] == SlotOf(s.env, s.rules, s.default, s.cache, request, Miss);
    assert Rank(slots, 0) == 0 && Rank(slots, 1) == 1;
    var filled := Filled(slots, [reply]);
    assert Stored(s.cache, filled, 0) == s.cache && Reached(filled, _ => false, 1) == 1;
    if key in s.cache && s.cache[key] == reply {
      assert s.cache[key := reply] == s.cache;
    }
  }

  /** A body that is no message, such as the page of a failing gateway, is replayed to the next client
      as a blank reply exactly when the rule allows to store replies without result. */
  lemma FailureIsReplayedIff(s: Setup, req: Msg)
    requires s.env.KeyOf(req) !in s.cache
    requires
      var decider := FirstDecisive(s.rules, s.env.Hits(req));
      decider.Some? && decider.value.action.Allow? && decider.value.cache.Some?
    ensures
      var after := s.(cache := Offered(s.cache, s.Single(req, Fine), s.env.KeyOf(req), Parsed(None)));
      after.Single(req, Fine) == Replay(Blank.CloneWithID(req.id)) <==>
      FirstDecisive(s.rules, s.env.Hits(req)).value.cache.value.cacheEmptyResult
  {
  }
}
