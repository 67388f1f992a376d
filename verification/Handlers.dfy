/** The three loops that serve JSON-RPC: one request over HTTP, a batch over HTTP, one request over a
    WebSocket. */
module Handlers {
  import opened Messages
  import opened Rules
  import opened Priority
  import opened Caching
  import opened Batch

  /** What a loop does with one request: refuse it, replay a cached reply, ask upstream and offer the
      reply to the cache of a rule, or give up without a reply. */
  datatype Verdict = Refuse | Replay(reply: Msg) | Ask(config: Option<RuleCache>) | GiveUp

  /** A request over a WebSocket that a rule allows.  An entry that vanishes between the test and the
      read leaves the request without a reply. */
  ghost function AllowedVerdict(env: Env, config: Option<RuleCache>, cache: map<Key, Msg>, req: Msg, fault: Fault)
    : Verdict
  {
    if config.None? || env.KeyOf(req) !in cache || fault.Miss? then Ask(config)
    else if fault.Vanish? then GiveUp
    else Replay(cache[env.KeyOf(req)].CloneWithID(req.id))
  }

  ghost function SocketVerdict(env: Env, rules: seq<Rule>, default: Action, cache: map<Key, Msg>, req: Msg,
                               fault: Fault): Verdict
  {
    var decider := FirstDecisive(rules, env.Hits(req));
    if decider.None? then (if default.Allow? then Ask(None) else Refuse)
    else if decider.value.action.Deny? then Refuse
    else AllowedVerdict(env, decider.value.cache, cache, req, fault)
  }

  /** One request over HTTP: an entry that vanishes is one that is not there. */
  ghost function SingleVerdict(env: Env, rules: seq<Rule>, default: Action, cache: map<Key, Msg>, req: Msg,
                               fault: Fault): Verdict
  {
    SocketVerdict(env, rules, default, cache, req, if fault.Vanish? then Miss else fault)
  }

  /** One request of a batch.  The first match decides alone, and the cache is read for every rule
      that allows, with a cache configuration or without. */
  ghost function SlotOf(env: Env, rules: seq<Rule>, default: Action, cache: map<Key, Msg>, req: Request, fault: Fault)
    : (slot: Slot)
    ensures slot.request == req
  {
    var first := FirstHit(rules, env.Hits(req.msg));
    if first.Some? && first.value.action.Allow? then
      var cached := Cached(env, cache, req.msg, fault);
      if cached.Some? then Slot(req, cached, None, 0)
      else Slot(req, None, first.value.cache, env.KeyOf(req.msg))
    else if (first.Some? && first.value.action.Deny?) || !default.Allow? then
      Slot(req, Some(UnauthorizedResponse(req.msg)), None, 0)
    else
      Slot(req, None, None, 0)
  }

  ghost function SlotsOf(env: Env, rules: seq<Rule>, default: Action, cache: map<Key, Msg>,
                         requests: seq<Request>, faults: nat -> Fault, n: nat): (slots: seq<Slot>)
    requires n <= |requests|
    ensures |slots| == n
  {
    seq(n, i requires 0 <= i < n => SlotOf(env, rules, default, cache, requests[i], faults(i)))
  }

  lemma SlotsGrow(env: Env, rules: seq<Rule>, default: Action, cache: map<Key, Msg>,
                  requests: seq<Request>, faults: nat -> Fault, n: nat)
    requires n < |requests|
    ensures SlotsOf(env, rules, default, cache, requests, faults, n + 1) ==
            SlotsOf(env, rules, default, cache, requests, faults, n)
            + [SlotOf(env, rules, default, cache, requests[n], faults(n))]
  {
  }

  /** The cache after a reply was offered to it under a rule's configuration. */
  function Offered(cache: map<Key, Msg>, verdict: Verdict, key: Key, reply: Msg): map<Key, Msg> {
    if verdict.Ask? && verdict.config.Some? && MayStore(verdict.config.value, reply) then cache[key := reply] else cache
  }

  /** What parsing makes of a body that is no message. */
  const Blank := Msg("", NoId, "", VNull, VNull, None)

  /** What the cache is offered for the body that upstream returned. */
  function Parsed(body: Option<Msg>): Msg {
    if body.Some? then body.value else Blank
  }

  /** If the body is the node's answer to the request, a sound cache is left sound. */
  ghost predicate KeepsSound(env: Env, req: Msg, body: Option<Msg>, before: map<Key, Msg>, after: map<Key, Msg>) {
    forall node: Node ::
      Respects(env, node) && Sound(env, node, before) && body == Some(node(req.verb, req.params).(id := req.id)) ==>
        Sound(env, node, after)
  }

  lemma StoringKeepsSound(env: Env, req: Msg, body: Option<Msg>, before: map<Key, Msg>, after: map<Key, Msg>)
    requires body.None? || after == before || after == before[env.KeyOf(req) := body.value]
    ensures KeepsSound(env, req, body, before, after)
  {
    forall node: Node |
      Respects(env, node) && Sound(env, node, before) && body == Some(node(req.verb, req.params).(id := req.id))
      ensures Sound(env, node, after)
    {
      StoreIsSoundIff(env, node, before, req, body.value);
    }
  }

  /** What the client of a single request reads. */
  function Written(verdict: Verdict, req: Msg, body: Option<Msg>): Option<Msg> {
    match verdict
    case GiveUp => None
    case Refuse => Some(UnauthorizedResponse(req))
    case Replay(reply) => Some(reply)
    case Ask(_) => body
  }

  function Bodies(requests: seq<Request>): seq<Msg> {
    seq(|requests|, i requires 0 <= i < |requests| => requests[i].msg)
  }

  /** What the client of a batch reads, `next` being what upstream returns for the pending list. */
  function BatchOut(slots: seq<Slot>, next: seq<Msg> -> Result<seq<Msg>>): Result<seq<Msg>> {
    var pending := Pending(slots, |slots|);
    var replies := next(Bodies(pending));
    if pending == [] then Ok(Answers(slots, |slots|))
    else if replies.Err? then Err("error getting responses from upstream")
    else if |replies.value| == |pending| then Ok(Answers(Filled(slots, replies.value), |slots|))
    else Ok(Answers(slots, |slots|))
  }

  /** The cache after a batch, `fails` telling which writes would fail. */
  function BatchCache(cache: map<Key, Msg>, slots: seq<Slot>, next: seq<Msg> -> Result<seq<Msg>>, fails: nat -> bool)
    : map<Key, Msg>
  {
    var pending := Pending(slots, |slots|);
    var replies := next(Bodies(pending));
    if pending != [] && replies.Ok? && |replies.value| == |pending|
    then
      var filled := Filled(slots, replies.value);
      Stored(cache, filled, Reached(filled, fails, |slots|))
    else cache
  }

  /** Requests of a batch so far: permitted, refused, served from the cache. */
  datatype Counts = Counts(allowed: nat, denied: nat, hits: nat)
  {
    function Plus(more: Counts): Counts {
      Counts(allowed + more.allowed, denied + more.denied, hits + more.hits)
    }
  }

  /** What one request adds to the counters. */
  ghost function CountOf(permitted: bool, slot: Slot): Counts {
    if !permitted then Counts(0, 1, 0) else Counts(1, 0, if slot.response.Some? then 1 else 0)
  }

  /** The counters after the first `n` requests. */
  ghost function CountsOf(env: Env, rules: seq<Rule>, default: Action, slots: seq<Slot>, n: nat): Counts
    requires n <= |slots|
  {
    if n == 0 then Counts(0, 0, 0)
    else
      var permitted := BatchPermits(rules, default, env.Hits(slots[n - 1].request.msg));
      CountsOf(env, rules, default, slots, n - 1).Plus(CountOf(permitted, slots[n - 1]))
  }

  lemma {:induction false} CountsOfPrefix(env: Env, rules: seq<Rule>, default: Action, slots: seq<Slot>,
                                          more: seq<Slot>, n: nat)
    requires n <= |slots|
    ensures CountsOf(env, rules, default, slots + more, n) == CountsOf(env, rules, default, slots, n)
  {
    if n > 0 {
      CountsOfPrefix(env, rules, default, slots, more, n - 1);
    }
  }

  /** Permitted and refused requests add up to the batch; what waits are the permitted less the cache hits. */
  lemma {:induction false} CountsAddUp(env: Env, rules: seq<Rule>, default: Action, slots: seq<Slot>, n: nat)
    requires n <= |slots|
    requires forall i :: 0 <= i < n && !BatchPermits(rules, default, env.Hits(slots[i].request.msg)) ==>
               slots[i].response.Some?
    ensures
      var counts := CountsOf(env, rules, default, slots, n);
      counts.allowed + counts.denied == n && Rank(slots, n) == counts.allowed - counts.hits
  {
    if n > 0 {
      CountsAddUp(env, rules, default, slots, n - 1);
    }
  }

  /** Requests with the same method and parameters are decided by the same rule. */
  lemma SameDecider(env: Env, rules: seq<Rule>, req: Msg, next: Msg)
    requires next.verb == req.verb && next.params == req.params
    ensures FirstDecisive(rules, env.Hits(next)) == FirstDecisive(rules, env.Hits(req))
  {
    forall r: Rule
      ensures env.Hits(next)(r) == env.Hits(req)(r)
    {
      assert Satisfied(r, next, env.accepts) == Satisfied(r, req, env.accepts);
    }
    SameDecisive(rules, env.Hits(next), env.Hits(req));
  }

  /** The rules as configured. */
  function Configured(rules: seq<JsonRpcRule>): (configured: seq<Rule>)
    ensures |configured| == |rules|
  {
    seq(|rules|, i requires 0 <= i < |rules| => rules[i].rule)
  }

  /** Matching a request against this rule ends the two loops over single requests. */
  ghost function Decides(env: Env, req: Msg): Rule -> bool {
    (r: Rule) => env.Hits(req)(r) && Decisive(r)
  }

  /** The loop gets past the first `n` rules. */
  ghost predicate Passed(rules: seq<Rule>, ends: Rule -> bool, n: nat)
    requires n <= |rules|
  {
    forall j :: 0 <= j < n ==> !ends(rules[j])
  }

  /** Matching the request does not panic up to the rule that ends the loop. */
  ghost predicate Safe(env: Env, rules: seq<Rule>, req: Msg, ends: Rule -> bool) {
    forall i :: 0 <= i < |rules| && Passed(rules, ends, i) ==> Matchable(rules[i], req, env.accepts)
  }

  ghost predicate Ready(env: Env, rules: seq<JsonRpcRule>, req: Msg, ends: Rule -> bool)
    reads rules
  {
    (forall i :: 0 <= i < |rules| ==> rules[i].Compiled()) && Safe(env, Configured(rules), req, ends)
  }

  class JsonRpcHandler {
    const env: Env
    const cache: ResponseCache
    var rules: seq<JsonRpcRule>
    var defaultAction: Action

    constructor (env: Env, cache: ResponseCache)
      ensures this.env == env && this.cache == cache && rules == [] && defaultAction == Deny
    {
      this.env, this.cache, rules, defaultAction := env, cache, [], Deny;
    }

    method SetRules(rules: seq<JsonRpcRule>, defaultAction: Action)
      modifies this
      ensures this.rules == rules && this.defaultAction == defaultAction
    {
      this.rules, this.defaultAction := rules, defaultAction;
    }

    /** `body` is what upstream returns if it is asked, `fails` whether a write to the cache would fail. */
    method HandleHttpSingle(request: Msg, fault: Fault, body: Option<Msg>, fails: bool) returns (written: Option<Msg>)
      requires Ready(env, rules, request, Decides(env, request))
      modifies cache
      ensures
        var v := SingleVerdict(env, Configured(rules), defaultAction, old(cache.entries), request, fault);
        && written == Written(v, request, body)
        && cache.entries ==
           (if fails then old(cache.entries) else Offered(old(cache.entries), v, env.KeyOf(request), Parsed(body)))
        && (v.Refuse? ==>
              && written.Some? && written.value.id == request.id && written.value.result == VNull
              && written.value.error.Some? && written.value.error.value.code == 401)
      ensures KeepsSound(env, request, body, old(cache.entries), cache.entries)
    {
      ghost var hits := env.Hits(request);
      for i := 0 to |rules|
        invariant cache.entries == old(cache.entries)
        invariant Passed(Configured(rules), Decides(env, request), i)
      {
        assert Configured(rules)[i] == rules[i].rule;
        var hash := env.KeyOf(request);
        var matches := rules[i].Match(request, env.accepts);
        assert matches == hits(Configured(rules)[i]);
        if matches {
          var rule := rules[i].rule;
          if Decisive(rule) {
            FirstDecisiveIs(Configured(rules), hits, i);
          }
          match rule.action
          case Allow =>
            written := AllowHttpSingle(request, hash, rule.cache, fault, body, fails);
            return;
          case Deny =>
            return Some(UnauthorizedResponse(request));
          case Other(_) =>
        }
      }
      FirstDecisiveIs(Configured(rules), hits, |rules|);
      written := if defaultAction.Allow? then body else Some(UnauthorizedResponse(request));
    }

    /** A matching rule allows the request. */
    method AllowHttpSingle(request: Msg, hash: Key, config: Option<RuleCache>, fault: Fault, body: Option<Msg>,
                           fails: bool)
      returns (written: Option<Msg>)
      requires hash == env.KeyOf(request)
      modifies cache
      ensures
        var v := AllowedVerdict(env, config, old(cache.entries), request, if fault.Vanish? then Miss else fault);
        && written == Written(v, request, body)
        && cache.entries == if fails then old(cache.entries) else Offered(old(cache.entries), v, hash, Parsed(body))
      ensures KeepsSound(env, request, body, old(cache.entries), cache.entries)
    {
      ghost var before := cache.entries;
      if config.Some? {
        var cached := cache.Has(hash, fault);
        if cached {
          var res := cache.Get(hash, fault);
          if res.Some? {
            return Some(res.value.CloneWithID(request.id));
          }
        }
        GetSingleUpstreamResponse(hash, config.value, body, fails);
        StoringKeepsSound(env, request, body, before, cache.entries);
      }
      written := body;
    }

    /** The flag that switches a rule's cache off is not looked at. */
    method GetSingleUpstreamResponse(hash: Key, config: RuleCache, body: Option<Msg>, fails: bool)
      modifies cache
      ensures
        cache.entries ==
        if fails then old(cache.entries) else Offered(old(cache.entries), Ask(Some(config)), hash, Parsed(body))
      ensures body.Some? ==>
        cache.entries ==
        if || fails || (body.value.error.Some? && !config.cacheError)
           || (body.value.result == VNull && !config.cacheEmptyResult)
        then old(cache.entries) else old(cache.entries)[hash := body.value]
    {
      var res := Parsed(body);
      if res.error.Some? && !config.cacheError {
        return;
      }
      if res.result == VNull && !config.cacheEmptyResult {
        return;
      }
      var _ := cache.Set(hash, res, fails);
    }

    method HandleHttpBatch(requests: seq<Request>, faults: nat -> Fault, next: seq<Msg> -> Result<seq<Msg>>,
                           fails: nat -> bool)
      returns (r: Result<seq<Msg>>, counts: Counts)
      requires forall i, j :: 0 <= i < j < |requests| ==> requests[i] != requests[j]
      requires forall i :: 0 <= i < |requests| ==> Ready(env, rules, requests[i].msg, env.Hits(requests[i].msg))
      modifies cache
      ensures
        var slots := SlotsOf(env, Configured(rules), defaultAction, old(cache.entries), requests, faults, |requests|);
        && r == BatchOut(slots, next)
        && cache.entries == BatchCache(old(cache.entries), slots, next, fails)
        && counts == CountsOf(env, Configured(rules), defaultAction, slots, |slots|)
        && (Pending(slots, |slots|) != [] && next(Bodies(Pending(slots, |slots|))).Err? ==>
              r.Err? && cache.entries == old(cache.entries))
    {
      var responses;
      responses, counts := Partition(requests, faults);
      forall i | 0 <= i < |requests|
        ensures responses.entries[i].request == requests[i]
      {
        assert responses.Slots()[i] ==
               SlotOf(env, Configured(rules), defaultAction, cache.entries, requests[i], faults(i));
        assert responses.Slots()[i] == responses.entries[i].Value();
      }
      r := Finish(responses, next, fails);
    }

    /** The loop over the requests. */
    method Partition(requests: seq<Request>, faults: nat -> Fault) returns (responses: JsonRpcResponses, counts: Counts)
      requires forall i :: 0 <= i < |requests| ==> Ready(env, rules, requests[i].msg, env.Hits(requests[i].msg))
      ensures fresh(responses) && (forall e :: e in responses.entries ==> fresh(e)) && responses.Distinct()
      ensures responses.Slots() ==
              SlotsOf(env, Configured(rules), defaultAction, cache.entries, requests, faults, |requests|)
      ensures counts == CountsOf(env, Configured(rules), defaultAction, responses.Slots(), |requests|)
    {
      responses := new JsonRpcResponses();
      counts := Counts(0, 0, 0);
      for i := 0 to |requests|
        invariant fresh(responses) && (forall e :: e in responses.entries ==> fresh(e))
        invariant responses.Distinct()
        invariant responses.Slots() ==
                  SlotsOf(env, Configured(rules), defaultAction, cache.entries, requests, faults, i)
        invariant counts == CountsOf(env, Configured(rules), defaultAction, responses.Slots(), i)
      {
        ghost var before := responses.Slots();
        ghost var slot := SlotOf(env, Configured(rules), defaultAction, cache.entries, requests[i], faults(i));
        var served := ServeInBatch(responses, requests[i], faults(i));
        SlotsGrow(env, Configured(rules), defaultAction, cache.entries, requests, faults, i);
        CountsOfPrefix(env, Configured(rules), defaultAction, before, [slot], i);
        counts := counts.Plus(served);
      }
    }

    /** One turn of the loop over the requests. */
    method ServeInBatch(responses: JsonRpcResponses, req: Request, fault: Fault) returns (served: Counts)
      requires Ready(env, rules, req.msg, env.Hits(req.msg)) && responses.Distinct()
      modifies responses
      ensures responses.Distinct() && (forall e :: e in responses.entries ==> e in old(responses.entries) || fresh(e))
      ensures
        var slot := SlotOf(env, Configured(rules), defaultAction, cache.entries, req, fault);
        && responses.Slots() == old(responses.Slots()) + [slot]
        && served == CountOf(BatchPermits(Configured(rules), defaultAction, env.Hits(req.msg)), slot)
    {
      var first := FirstMatch(req.msg);
      if first.Some? {
        match first.value.action
        case Allow =>
          served := AllowInBatch(responses, req, first.value.cache, fault);
          return;
        case Deny =>
          responses.Deny(req);
          return Counts(0, 1, 0);
        case Other(_) =>
      }
      served := DefaultInBatch(responses, req);
    }

    /** The loop over the rules, which the first match ends. */
    method FirstMatch(req: Msg) returns (first: Option<Rule>)
      requires Ready(env, rules, req, env.Hits(req))
      ensures first == FirstHit(Configured(rules), env.Hits(req))
    {
      ghost var hits := env.Hits(req);
      for i := 0 to |rules|
        invariant Passed(Configured(rules), hits, i)
      {
        assert Configured(rules)[i] == rules[i].rule;
        var matches := rules[i].Match(req, env.accepts);
        assert matches == hits(Configured(rules)[i]);
        if matches {
          FirstHitIs(Configured(rules), hits, i);
          return Some(rules[i].rule);
        }
      }
      FirstHitIs(Configured(rules), hits, |rules|);
      first := None;
    }

    /** No rule decides. */
    method DefaultInBatch(responses: JsonRpcResponses, req: Request) returns (served: Counts)
      requires responses.Distinct()
      modifies responses
      ensures responses.Distinct() && (forall e :: e in responses.entries ==> e in old(responses.entries) || fresh(e))
      ensures responses.Slots() == old(responses.Slots()) +
                [Slot(req, if defaultAction.Allow? then None else Some(UnauthorizedResponse(req.msg)), None, 0)]
      ensures served == if defaultAction.Allow? then Counts(1, 0, 0) else Counts(0, 1, 0)
    {
      if defaultAction.Allow? {
        responses.AddPending(req);
        served := Counts(1, 0, 0);
      } else {
        responses.Deny(req);
        served := Counts(0, 1, 0);
      }
    }

    method AllowInBatch(responses: JsonRpcResponses, req: Request, config: Option<RuleCache>, fault: Fault)
      returns (served: Counts)
      requires responses.Distinct()
      modifies responses
      ensures responses.Distinct() && (forall e :: e in responses.entries ==> e in old(responses.entries) || fresh(e))
      ensures
        var cached := Cached(env, cache.entries, req.msg, fault);
        && responses.Slots() == old(responses.Slots()) +
             [if cached.Some? then Slot(req, cached, None, 0) else Slot(req, None, config, env.KeyOf(req.msg))]
        && served == Counts(1, 0, if cached.Some? then 1 else 0)
    {
      var cached := cache.Has(env.KeyOf(req.msg), fault);
      if cached {
        var res := cache.Get(env.KeyOf(req.msg), fault);
        if res.Some? {
          responses.AddResponse(req, res.value);
          return Counts(1, 0, 1);
        }
      }
      responses.AddPendingWithCacheConfig(req, env.KeyOf(req.msg), config);
      served := Counts(1, 0, 0);
    }

    /** The pending requests go upstream, and the replies are used only when there is one for each. */
    method Finish(responses: JsonRpcResponses, next: seq<Msg> -> Result<seq<Msg>>, fails: nat -> bool)
      returns (r: Result<seq<Msg>>)
      requires responses.Distinct()
      requires DistinctRequests(responses.entries)
      modifies responses.Nodes(), cache
      ensures r == BatchOut(old(responses.Slots()), next)
      ensures cache.entries == BatchCache(old(cache.entries), old(responses.Slots()), next, fails)
    {
      ghost var slots := responses.Slots();
      var pending := responses.GetPendingRequests();
      assert pending == Pending(slots, |slots|);
      if |pending| > 0 {
        var replies := next(Bodies(pending));
        if replies.Err? {
          return Err("error getting responses from upstream");
        }
        if |replies.value| == |pending| {
          UseReplies(responses, pending, replies.value, fails);
          assert responses.Slots() == Filled(slots, replies.value);
        }
      }
      var final := responses.GetFinal();
      r := Ok(final);
    }

    /** A failed write to the cache is only logged. */
    method UseReplies(responses: JsonRpcResponses, pending: seq<Request>, replies: seq<Msg>, fails: nat -> bool)
      requires responses.Distinct() && DistinctRequests(responses.entries)
      requires pending == Pending(responses.Slots(), |responses.entries|) && |replies| == |pending|
      modifies responses.Nodes(), cache
      ensures responses.Slots() == Filled(old(responses.Slots()), replies)
      ensures
        var n := |responses.entries|;
        cache.entries == Stored(old(cache.entries), responses.Slots(), Reached(responses.Slots(), fails, n))
    {
      responses.Set(pending, replies);
      var _ := responses.StoreInCache(cache, fails);
    }
  }
}
