/** JSON-RPC rules: compiling and matching, their order, and what the first match decides. */
module Rules {
  import opened Messages
  import opened Ids

  datatype Action = Allow | Deny | Other(name: string)

  datatype RuleCache = RuleCache(enable: bool, ttl: int, cacheError: bool, cacheEmptyResult: bool)

  /** A rule as it is configured.  A priority of zero is one that was not given. */
  datatype Rule = Rule(priority: int, action: Action, methods: seq<string>, params: Val, cache: Option<RuleCache>)

  /** A compiled pattern; `slash` says whether `/` separates components.  What a pattern accepts is
      left to the glob library: a predicate that every member here takes as a parameter. */
  datatype Glob = Glob(pattern: string, slash: bool)

  // ----- what a match means

  ghost predicate MethodOk(rule: Rule, verb: string, accepts: (Glob, string) -> bool) {
    rule.methods == [] || exists i :: 0 <= i < |rule.methods| && accepts(Glob(rule.methods[i], false), verb)
  }

  /** A string is a pattern for a string; any other value must be equal, a missing one counting as null. */
  predicate ParamOk(want: Val, got: Option<Val>, accepts: (Glob, string) -> bool) {
    if want.VStr? then got.Some? && got.value.VStr? && accepts(Glob(want.s, true), got.value.s)
    else want == if got.Some? then got.value else VNull
  }

  function Field(fields: map<string, Val>, key: string): Option<Val> {
    if key in fields then Some(fields[key]) else None
  }

  /** The first `n` positional parameters are what the rule wants. */
  ghost predicate AllOk(want: seq<Val>, got: seq<Val>, n: nat, accepts: (Glob, string) -> bool)
    requires n <= |want|
  {
    forall i :: 0 <= i < n ==> i < |got| && ParamOk(want[i], Some(got[i]), accepts)
  }

  /** Named parameters are compared with named ones, positional with positional.  A rule of the one
      kind accepts every request of the other kind; it refuses a request without parameters. */
  ghost predicate ParamsOk(rule: Rule, params: Val, accepts: (Glob, string) -> bool) {
    if rule.params.VMap? && rule.params.fields != map[] then
      params.VList? ||
      (params.VMap? && forall k :: k in rule.params.fields ==>
         ParamOk(rule.params.fields[k], Field(params.fields, k), accepts))
    else if rule.params.VList? && rule.params.items != [] then
      params.VMap? ||
      (params.VList? && AllOk(rule.params.items, params.items, |rule.params.items|, accepts))
    else true
  }

  ghost predicate Satisfied(rule: Rule, req: Msg, accepts: (Glob, string) -> bool) {
    MethodOk(rule, req.verb, accepts) && ParamsOk(rule, req.params, accepts)
  }

  /** Comparing two lists or two maps with `!=` panics in Go. */
  predicate Comparable(want: Val, got: Val) {
    want.VStr? || !((want.VList? && got.VList?) || (want.VMap? && got.VMap?))
  }

  /** Comparing the parameters runs into no index out of range and no incomparable values.  Positional
      ones are compared in order up to the first difference; named ones in any order. */
  ghost predicate NoPanic(rule: Rule, params: Val, accepts: (Glob, string) -> bool) {
    && (rule.params.VList? && params.VList? ==>
          forall i :: 0 <= i < |rule.params.items| && AllOk(rule.params.items, params.items, i, accepts) ==>
            i < |params.items| && Comparable(rule.params.items[i], params.items[i]))
    && (rule.params.VMap? && params.VMap? ==>
          forall k :: k in rule.params.fields && k in params.fields ==>
            Comparable(rule.params.fields[k], params.fields[k]))
  }

  /** Matching does not panic: parameters are compared only where the method matches. */
  ghost predicate Matchable(rule: Rule, req: Msg, accepts: (Glob, string) -> bool) {
    MethodOk(rule, req.verb, accepts) ==> NoPanic(rule, req.params, accepts)
  }

  ghost predicate HasWholeNumber(params: Val) {
    (params.VMap? && exists k :: k in params.fields && params.fields[k].VInt?)
    || (params.VList? && exists i :: 0 <= i < |params.items| && params.items[i].VInt?)
  }

  /** YAML reads a whole number as an integer and JSON as a float: a rule with a whole number among its
      parameters matches exactly the requests with parameters of the other kind, never of its own. */
  lemma WholeNumbersNeverMatch(rule: Rule, req: Msg, accepts: (Glob, string) -> bool)
    requires HasWholeNumber(rule.params) && !HasWholeNumber(req.params)
    ensures Satisfied(rule, req, accepts) <==>
            && MethodOk(rule, req.verb, accepts)
            && ((rule.params.VMap? && req.params.VList?) || (rule.params.VList? && req.params.VMap?))
  {
    if rule.params.VMap? && req.params.VMap? {
      var k :| k in rule.params.fields && rule.params.fields[k].VInt?;
      assert !ParamOk(rule.params.fields[k], Field(req.params.fields, k), accepts);
    }
    if rule.params.VList? && req.params.VList? {
      var i :| 0 <= i < |rule.params.items| && rule.params.items[i].VInt?;
      assert i < |req.params.items| ==> !ParamOk(rule.params.items[i], Some(req.params.items[i]), accepts);
    }
  }

  class JsonRpcRule {
    const rule: Rule
    var methodGlobs: seq<Glob>
    var paramsGlobs: map<string, Glob>
    var paramsMap: bool
    var paramsSlice: bool

    constructor (rule: Rule)
      ensures this.rule == rule && methodGlobs == [] && paramsGlobs == map[]
    {
      this.rule := rule;
      methodGlobs, paramsGlobs, paramsMap, paramsSlice := [], map[], false, false;
    }

    /** The globs are those of the configured strings, under the key or the printed index. */
    ghost predicate Compiled()
      reads this
    {
      && methodGlobs == seq(|rule.methods|, i requires 0 <= i < |rule.methods| => Glob(rule.methods[i], false))
      && paramsMap == (rule.params.VMap? && rule.params.fields != map[])
      && paramsSlice == (rule.params.VList? && rule.params.items != [])
      && (rule.params.VMap? ==> forall k :: k in rule.params.fields ==>
            (k in paramsGlobs <==> rule.params.fields[k].VStr?)
            && (k in paramsGlobs ==> paramsGlobs[k] == Glob(rule.params.fields[k].s, true)))
      && (rule.params.VList? ==> forall i :: 0 <= i < |rule.params.items| ==>
            (Itoa(i) in paramsGlobs <==> rule.params.items[i].VStr?)
            && (Itoa(i) in paramsGlobs ==> paramsGlobs[Itoa(i)] == Glob(rule.params.items[i].s, true)))
    }

    method Compile()
      requires methodGlobs == [] && paramsGlobs == map[]
      modifies this
      ensures Compiled()
    {
      CompileMethods();
      paramsMap, paramsSlice := false, false;
      if rule.params.VMap? {
        CompileFields();
      }
      if rule.params.VList? {
        CompileItems();
      }
    }

    method CompileMethods()
      requires methodGlobs == []
      modifies this`methodGlobs
      ensures methodGlobs == seq(|rule.methods|, i requires 0 <= i < |rule.methods| => Glob(rule.methods[i], false))
    {
      for i := 0 to |rule.methods|
        invariant methodGlobs == seq(i, j requires 0 <= j < i => Glob(rule.methods[j], false))
      {
        methodGlobs := methodGlobs + [Glob(rule.methods[i], false)];
      }
    }

    method CompileFields()
      requires rule.params.VMap? && paramsGlobs == map[]
      modifies this`paramsMap, this`paramsGlobs
      ensures paramsMap == (rule.params.fields != map[])
      ensures forall k :: k in paramsGlobs <==> k in rule.params.fields && rule.params.fields[k].VStr?
      ensures forall k :: k in paramsGlobs ==> paramsGlobs[k] == Glob(rule.params.fields[k].s, true)
    {
      var fields := rule.params.fields;
      paramsMap := fields != map[];
      var todo := fields.Keys;
      while todo != {}
        invariant todo <= fields.Keys && paramsMap == (fields != map[])
        invariant forall k :: k in paramsGlobs <==> k in fields && k !in todo && fields[k].VStr?
        invariant forall k :: k in paramsGlobs ==> paramsGlobs[k] == Glob(fields[k].s, true)
        decreases |todo|
      {
        var key :| key in todo;
        if fields[key].VStr? {
          paramsGlobs := paramsGlobs[key := Glob(fields[key].s, true)];
        }
        todo := todo - {key};
      }
    }

    method CompileItems()
      requires rule.params.VList? && paramsGlobs == map[]
      modifies this`paramsSlice, this`paramsGlobs
      ensures paramsSlice == (rule.params.items != [])
      ensures forall i :: 0 <= i < |rule.params.items| ==> (Itoa(i) in paramsGlobs <==> rule.params.items[i].VStr?)
      ensures forall i :: 0 <= i < |rule.params.items| && Itoa(i) in paramsGlobs ==>
                paramsGlobs[Itoa(i)] == Glob(rule.params.items[i].s, true)
    {
      var items := rule.params.items;
      paramsSlice := items != [];
      for n := 0 to |items|
        invariant paramsSlice == (items != [])
        invariant forall i :: 0 <= i < |items| ==> (Itoa(i) in paramsGlobs <==> i < n && items[i].VStr?)
        invariant forall i :: 0 <= i < n && items[i].VStr? ==> paramsGlobs[Itoa(i)] == Glob(items[i].s, true)
      {
        forall i: nat | i < |items|
          ensures Itoa(i) == Itoa(n) ==> i == n
        {
          ItoaInjective(i, n);
        }
        if items[n].VStr? {
          paramsGlobs := paramsGlobs[Itoa(n) := Glob(items[n].s, true)];
        }
      }
    }

    /** Matching decides the declared meaning of the rule, whatever order the map is traversed in. */
    method Match(req: Msg, accepts: (Glob, string) -> bool) returns (ok: bool)
      requires Compiled() && Matchable(rule, req, accepts)
      ensures ok == Satisfied(rule, req, accepts)
    {
      var methodMatch := MatchMethod(req.verb, accepts);
      if !methodMatch {
        return false;
      }
      if !(paramsMap || paramsSlice) {
        return true;
      }
      match req.params
      case VMap(fields) =>
        if !paramsMap {
          return true;
        }
        ok := MatchFields(fields, accepts);
      case VList(items) =>
        if !paramsSlice {
          return true;
        }
        ok := MatchItems(items, accepts);
      case _ =>
        ok := false;
    }

    method MatchMethod(verb: string, accepts: (Glob, string) -> bool) returns (ok: bool)
      requires Compiled()
      ensures ok == MethodOk(rule, verb, accepts)
    {
      ok := |rule.methods| == 0;
      for i := 0 to |methodGlobs|
        invariant ok <==> rule.methods == [] || exists j :: 0 <= j < i && accepts(Glob(rule.methods[j], false), verb)
      {
        if accepts(methodGlobs[i], verb) {
          ok := true;
        }
      }
    }

    method MatchFields(requestParams: map<string, Val>, accepts: (Glob, string) -> bool) returns (ok: bool)
      requires Compiled() && rule.params.VMap? && NoPanic(rule, VMap(requestParams), accepts)
      ensures ok == forall k :: k in rule.params.fields ==>
                      ParamOk(rule.params.fields[k], Field(requestParams, k), accepts)
    {
      var todo := rule.params.fields.Keys;
      while todo != {}
        invariant todo <= rule.params.fields.Keys
        invariant forall k :: k in rule.params.fields && k !in todo ==>
                    ParamOk(rule.params.fields[k], Field(requestParams, k), accepts)
        decreases |todo|
      {
        var key :| key in todo;
        if key in paramsGlobs {
          if key !in requestParams || !requestParams[key].VStr? || !accepts(paramsGlobs[key], requestParams[key].s) {
            return false;
          }
        } else if rule.params.fields[key] != (if key in requestParams then requestParams[key] else VNull) {
          return false;
        }
        todo := todo - {key};
      }
      ok := true;
    }

    method MatchItems(requestParams: seq<Val>, accepts: (Glob, string) -> bool) returns (ok: bool)
      requires Compiled() && rule.params.VList? && NoPanic(rule, VList(requestParams), accepts)
      ensures ok == AllOk(rule.params.items, requestParams, |rule.params.items|, accepts)
    {
      for n := 0 to |rule.params.items|
        invariant AllOk(rule.params.items, requestParams, n, accepts)
      {
        assert n < |requestParams| && Comparable(rule.params.items[n], requestParams[n]);
        var key := Itoa(n);
        if key in paramsGlobs {
          if !requestParams[n].VStr? || !accepts(paramsGlobs[key], requestParams[n].s) {
            return false;
          }
        } else if rule.params.items[n] != requestParams[n] {
          return false;
        }
      }
      ok := true;
    }
  }
}
