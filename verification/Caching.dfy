/** The response cache that the three JSON-RPC loops share, and when it is invisible. */
module Caching {
  import opened Messages
  import opened Rules

  type Key = int

  /** What the loops rely on without looking inside: what a pattern accepts, and the cache key of a
      method and its parameters. */
  datatype Env = Env(accepts: (Glob, string) -> bool, key: (string, Val) -> Key)
  {
    function KeyOf(req: Msg): Key {
      key(req.verb, req.params)
    }

    ghost function Hits(req: Msg): Rule -> bool {
      (r: Rule) => Satisfied(r, req, accepts)
    }
  }

  /** A node that answers a request as a function of method and parameters. */
  type Node = (string, Val) -> Msg

  function Answer(node: Node, req: Msg): Msg {
    node(req.verb, req.params).CloneWithID(req.id)
  }

  /** A reply without its id. */
  function Payload(m: Msg): Msg {
    m.CloneWithID(NoId)
  }

  /** Every entry is what the node answers to every request with that key. */
  ghost predicate Sound(env: Env, node: Node, cache: map<Key, Msg>) {
    forall verb, params :: env.key(verb, params) in cache ==>
      Payload(cache[env.key(verb, params)]) == Payload(node(verb, params))
  }

  /** Requests with the same key have the same answer. */
  ghost predicate Respects(env: Env, node: Node) {
    forall v, p, w, q :: env.key(v, p) == env.key(w, q) ==> Payload(node(v, p)) == Payload(node(w, q))
  }

  /** Storing the node's answers keeps a cache sound exactly when the key respects the answers. */
  lemma StoringAnswersIsSoundIff(env: Env, node: Node)
    ensures (forall verb, params :: Sound(env, node, map[env.key(verb, params) := node(verb, params)]))
            <==> Respects(env, node)
  {
  }

  /** A reply may be stored under a request's key exactly when it is what the node would answer. */
  lemma StoreIsSoundIff(env: Env, node: Node, cache: map<Key, Msg>, req: Msg, reply: Msg)
    requires Respects(env, node) && Sound(env, node, cache)
    ensures Sound(env, node, cache[env.KeyOf(req) := reply]) <==> Payload(reply) == Payload(Answer(node, req))
  {
  }

  /** Entries may expire at any time. */
  lemma ExpiryIsSound(env: Env, node: Node, cache: map<Key, Msg>, gone: set<Key>)
    requires Sound(env, node, cache)
    ensures Sound(env, node, cache - gone)
  {
  }

  /** An error is stored, and a reply without result, only where the rule says so. */
  predicate MayStore(config: RuleCache, reply: Msg) {
    (reply.error.Some? ==> config.cacheError) && (reply.result == VNull ==> config.cacheEmptyResult)
  }

  /** What can go wrong with the cache while one request is served: nothing, the entry is not found
      (the test failed or the entry had expired), or it vanishes between the test and the read. */
  datatype Fault = Fine | Miss | Vanish

  class ResponseCache {
    var entries: map<Key, Msg>

    constructor ()
      ensures entries == map[]
    {
      entries := map[];
    }

    method Has(key: Key, fault: Fault) returns (ok: bool)
      ensures ok == (key in entries && !fault.Miss?)
    {
      ok := key in entries && !fault.Miss?;
    }

    method Get(key: Key, fault: Fault) returns (reply: Option<Msg>)
      ensures reply == if key in entries && !fault.Vanish? then Some(entries[key]) else None
    {
      reply := if key in entries && !fault.Vanish? then Some(entries[key]) else None;
    }

    /** The environment decides whether the write fails. */
    method Set(key: Key, reply: Msg, fails: bool) returns (ok: bool)
      modifies this
      ensures ok == !fails && entries == if fails then old(entries) else old(entries)[key := reply]
    {
      if !fails {
        entries := entries[key := reply];
      }
      ok := !fails;
    }
  }

  /** The entry that a request gets from the cache. */
  function Cached(env: Env, cache: map<Key, Msg>, req: Msg, fault: Fault): Option<Msg> {
    if fault.Fine? && env.KeyOf(req) in cache then Some(cache[env.KeyOf(req)].CloneWithID(req.id)) else None
  }

  /** A sound cache returns the node's own answer. */
  lemma CachedIsTheAnswer(env: Env, node: Node, cache: map<Key, Msg>, req: Msg, fault: Fault)
    requires Sound(env, node, cache)
    ensures Cached(env, cache, req, fault).Some? ==> Cached(env, cache, req, fault).value == Answer(node, req)
  {
  }

  /** What a client gets with no cache and no batch: the node's answer, or a refusal. */
  function Plain(node: Node, req: Msg, permitted: bool): (reply: Msg)
    ensures reply.id == req.id
    ensures permitted ==> reply == node(req.verb, req.params).(id := req.id)
    ensures !permitted ==> reply.result == VNull && reply.error.Some? && reply.error.value.code == 401
  {
    if permitted then Answer(node, req) else UnauthorizedResponse(req)
  }
}
