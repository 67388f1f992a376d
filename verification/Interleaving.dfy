/** The three loops run at the same time on the shared cache.  A step is one access to the cache, or the
    passing of a message; rules are replaced only while no loop over the rules holds the read lock. */
module Interleaving {
  import opened Messages
  import opened Rules
  import opened Priority
  import opened Caching
  import opened Batch
  import opened Handlers
  import opened Transparency
  import opened WebSocket

  type Tid = int

  /** A use of the proxy between two of its steps.  A single request waits for upstream, and has its
      reply to store once the client has read it.  A batch is partitioned, asks upstream, and stores
      what came back before the client reads anything. */
  datatype Job =
    | Waiting(req: Msg, config: Option<RuleCache>)
    | Storing(req: Msg, config: Option<RuleCache>, reply: Msg)
    | Partitioning(requests: seq<Request>, slots: seq<Slot>)
    | Asking(slots: seq<Slot>, rules: seq<Rule>, default: Action)
    | Keeping(slots: seq<Slot>, n: nat, rules: seq<Rule>, default: Action)

  /** What a client has read, and the rules that were in force when its requests were decided. */
  datatype Read =
    | OneRead(req: Msg, rules: seq<Rule>, default: Action, reply: Option<Msg>)
    | ManyRead(requests: seq<Request>, rules: seq<Rule>, default: Action, replies: seq<Msg>)

  datatype Proxy = Proxy(s: Setup, jobs: map<Tid, Job>, seen: seq<Read>)

  datatype Step =
    | Begin(t: Tid, req: Msg, socket: bool, fault: Fault)
    | Reply(t: Tid)
    | Store(t: Tid, fails: bool)
    | BeginBatch(t: Tid, requests: seq<Request>)
    | Serve(t: Tid, fault: Fault)
    | Send(t: Tid)
    | Fill(t: Tid)
    | Keep(t: Tid, fails: bool)
    | Finish(t: Tid)
    | Expire(keys: set<Key>)
    | NewRules(rules: seq<Rule>, default: Action)

  predicate HoldsLock(job: Job) {
    job.Waiting? || job.Storing? || job.Partitioning?
  }

  ghost predicate Enabled(p: Proxy, step: Step) {
    match step
    case Begin(t, req, socket, _) => t !in p.jobs && (socket ==> !HasSubscriptionMethod(req))
    case Reply(t) => t in p.jobs && p.jobs[t].Waiting?
    case Store(t, _) => t in p.jobs && p.jobs[t].Storing?
    case BeginBatch(t, _) => t !in p.jobs
    case Serve(t, _) => t in p.jobs && p.jobs[t].Partitioning? && |p.jobs[t].slots| < |p.jobs[t].requests|
    case Send(t) => t in p.jobs && p.jobs[t].Partitioning? && |p.jobs[t].slots| == |p.jobs[t].requests|
    case Fill(t) => t in p.jobs && p.jobs[t].Asking?
    case Keep(t, _) => t in p.jobs && p.jobs[t].Keeping? && p.jobs[t].n < |p.jobs[t].slots|
    case Finish(t) => t in p.jobs && p.jobs[t].Keeping? && p.jobs[t].n == |p.jobs[t].slots|
    case Expire(_) => true
    case NewRules(rules, _) => OnlyAllowOrDeny(rules) && forall t :: t in p.jobs ==> !HoldsLock(p.jobs[t])
  }

  function InFull(node: Node): seq<Msg> -> Result<seq<Msg>> {
    (ms: seq<Msg>) => Ok(seq(|ms|, k requires 0 <= k < |ms| => Answer(node, ms[k])))
  }

  /** The slots once upstream has answered what they wait for. */
  function Answered(node: Node, slots: seq<Slot>): (filled: seq<Slot>)
    ensures |filled| == |slots|
  {
    Filled(slots, InFull(node)(Bodies(Pending(slots, |slots|))).value)
  }

  function Requests(slots: seq<Slot>): seq<Request> {
    seq(|slots|, i requires 0 <= i < |slots| => slots[i].request)
  }

  ghost function Start(p: Proxy, t: Tid, req: Msg, socket: bool, fault: Fault): Proxy {
    var v := if socket then p.s.Socket(req, fault) else p.s.Single(req, fault);
    if v.Ask? then p.(jobs := p.jobs[t := Waiting(req, v.config)])
    else p.(seen := p.seen + [OneRead(req, p.s.rules, p.s.default, Written(v, req, None))])
  }

  ghost function Apply(node: Node, p: Proxy, step: Step): Proxy
    requires Enabled(p, step)
  {
    match step
    case Begin(t, req, socket, fault) => Start(p, t, req, socket, fault)
    case Reply(t) =>
      var j := p.jobs[t];
      p.(jobs := p.jobs[t := Storing(j.req, j.config, Answer(node, j.req))],
         seen := p.seen + [OneRead(j.req, p.s.rules, p.s.default, Some(Answer(node, j.req)))])
    case Store(t, fails) =>
      var j := p.jobs[t];
      var cache := if fails then p.s.cache else Offered(p.s.cache, Ask(j.config), p.s.env.KeyOf(j.req), j.reply);
      p.(s := p.s.(cache := cache), jobs := p.jobs - {t})
    case BeginBatch(t, requests) => p.(jobs := p.jobs[t := Partitioning(requests, [])])
    case Serve(t, fault) =>
      var j := p.jobs[t];
      var slot := SlotOf(p.s.env, p.s.rules, p.s.default, p.s.cache, j.requests[|j.slots|], fault);
      p.(jobs := p.jobs[t := Partitioning(j.requests, j.slots + [slot])])
    case Send(t) => p.(jobs := p.jobs[t := Asking(p.jobs[t].slots, p.s.rules, p.s.default)])
    case Fill(t) =>
      var j := p.jobs[t];
      var filled := Answered(node, j.slots);
      var n := if Pending(j.slots, |j.slots|) == [] then |filled| else 0;
      p.(jobs := p.jobs[t := Keeping(filled, n, j.rules, j.default)])
    case Keep(t, fails) =>
      var j := p.jobs[t];
      if fails && j.slots[j.n].Keeps() then p.(jobs := p.jobs[t := j.(n := |j.slots|)])
      else p.(s := p.s.(cache := Kept(p.s.cache, j.slots[j.n])), jobs := p.jobs[t := j.(n := j.n + 1)])
    case Finish(t) =>
      var j := p.jobs[t];
      p.(jobs := p.jobs - {t},
         seen := p.seen + [ManyRead(Requests(j.slots), j.rules, j.default, Answers(j.slots, |j.slots|))])
    case Expire(keys) => p.(s := p.s.(cache := p.s.cache - keys))
    case NewRules(rules, default) => p.(s := p.s.(rules := rules, default := default))
  }

  /** The cache once one slot has been offered to it. */
  function Kept(cache: map<Key, Msg>, slot: Slot): map<Key, Msg> {
    Stored(cache, [slot], 1)
  }

  ghost function Run(node: Node, p: Proxy, steps: seq<Step>): Proxy {
    if steps == [] then p
    else
      var before := Run(node, p, steps[..|steps| - 1]);
      if Enabled(before, steps[|steps| - 1]) then Apply(node, before, steps[|steps| - 1]) else before
  }

  /** Entries may expire at any time; the rules may be replaced, by rules that allow or deny, exactly while no
      loop over them is under way. */
  lemma AroundTheLoops(node: Node, p: Proxy, rules: seq<Rule>, default: Action, keys: set<Key>)
    ensures Enabled(p, Expire(keys)) && Apply(node, p, Expire(keys)) == p.(s := p.s.(cache := p.s.cache - keys))
    ensures
      Enabled(p, NewRules(rules, default)) <==>
      && (forall r :: r in rules ==> r.action.Allow? || r.action.Deny?)
      && (forall t :: t in p.jobs ==> p.jobs[t].Asking? || p.jobs[t].Keeping?)
    ensures Enabled(p, NewRules(rules, default)) ==>
              Apply(node, p, NewRules(rules, default)) == p.(s := p.s.(rules := rules, default := default))
  {
  }

  // ----- what every step keeps

  /** What a proxy without cache and without batches sends under these rules. */
  ghost function PlainUnder(env: Env, node: Node, rules: seq<Rule>, default: Action, req: Msg): Msg {
    Plain(node, req, LoopPermits(rules, default, env.Hits(req)))
  }

  ghost predicate SlotOk(env: Env, node: Node, rules: seq<Rule>, default: Action, slot: Slot) {
    var req := slot.request.msg;
    && (slot.response.Some? ==> slot.response.value == PlainUnder(env, node, rules, default, req))
    && (slot.response.None? ==> LoopPermits(rules, default, env.Hits(req)))
    && (slot.cache.Some? ==> slot.key == env.KeyOf(req) && LoopPermits(rules, default, env.Hits(req)))
  }

  ghost predicate SlotsOk(env: Env, node: Node, rules: seq<Rule>, default: Action, slots: seq<Slot>) {
    forall i :: 0 <= i < |slots| ==> SlotOk(env, node, rules, default, slots[i])
  }

  ghost predicate JobOk(s: Setup, node: Node, job: Job) {
    match job
    case Waiting(req, _) => s.LoopPermits(req)
    case Storing(req, _, reply) => reply == Answer(node, req)
    case Partitioning(requests, slots) =>
      && |slots| <= |requests| && SlotsOk(s.env, node, s.rules, s.default, slots)
      && (forall i :: 0 <= i < |slots| ==> slots[i].request == requests[i])
    case Asking(slots, rules, default) => SlotsOk(s.env, node, rules, default, slots)
    case Keeping(slots, n, rules, default) =>
      && SlotsOk(s.env, node, rules, default, slots) && n <= |slots|
      && (forall i :: 0 <= i < |slots| ==> slots[i].response.Some?)
  }

  /** The client has read what a proxy without cache and without batches would have sent it, or nothing. */
  ghost predicate ReadOk(env: Env, node: Node, r: Read) {
    match r
    case OneRead(req, rules, default, reply) =>
      reply == None || reply == Some(PlainUnder(env, node, rules, default, req))
    case ManyRead(requests, rules, default, replies) =>
      && |replies| == |requests|
      && (forall i :: 0 <= i < |requests| ==> replies[i] == PlainUnder(env, node, rules, default, requests[i].msg))
  }

  ghost predicate Good(node: Node, s: Setup) {
    Respects(s.env, node) && Sound(s.env, node, s.cache) && OnlyAllowOrDeny(s.rules)
  }

  ghost predicate Inv(node: Node, p: Proxy) {
    && Good(node, p.s)
    && (forall t :: t in p.jobs ==> JobOk(p.s, node, p.jobs[t]))
    && (forall r :: r in p.seen ==> ReadOk(p.s.env, node, r))
  }

  /** A job that does not hold the lock does not depend on the rules in force. */
  lemma OtherJobs(node: Node, p: Proxy, s': Setup, t: Tid)
    requires t in p.jobs && JobOk(p.s, node, p.jobs[t]) && s'.env == p.s.env
    requires (s'.rules == p.s.rules && s'.default == p.s.default) || !HoldsLock(p.jobs[t])
    ensures JobOk(s', node, p.jobs[t])
  {
  }

  /** One job and one read change, rules stay. */
  lemma Moves(node: Node, p: Proxy, p': Proxy, t: Tid)
    requires Inv(node, p) && Good(node, p'.s)
    requires p'.s.env == p.s.env && p'.s.rules == p.s.rules && p'.s.default == p.s.default
    requires forall u :: u in p'.jobs && u != t ==> u in p.jobs && p'.jobs[u] == p.jobs[u]
    requires t in p'.jobs ==> JobOk(p'.s, node, p'.jobs[t])
    requires p'.seen == p.seen || (|p'.seen| == |p.seen| + 1 && p'.seen[..|p.seen|] == p.seen
                                     && ReadOk(p.s.env, node, p'.seen[|p.seen|]))
    ensures Inv(node, p')
  {
    forall u | u in p'.jobs
      ensures JobOk(p'.s, node, p'.jobs[u])
    {
      if u != t {
        OtherJobs(node, p, p'.s, u);
      }
    }
  }

  lemma BeginKeeps(node: Node, p: Proxy, t: Tid, req: Msg, socket: bool, fault: Fault)
    requires Inv(node, p) && t !in p.jobs
    ensures Inv(node, Start(p, t, req, socket, fault))
  {
    DeciderIsDecisive(p.s, req);
    CachedIsTheAnswer(p.s.env, node, p.s.cache, req, fault);
    Moves(node, p, Start(p, t, req, socket, fault), t);
  }

  lemma ReplyKeeps(node: Node, p: Proxy, t: Tid)
    requires Inv(node, p) && Enabled(p, Reply(t))
    ensures Inv(node, Apply(node, p, Reply(t)))
  {
    assert JobOk(p.s, node, p.jobs[t]);
    Moves(node, p, Apply(node, p, Reply(t)), t);
  }

  lemma StoreKeeps(node: Node, p: Proxy, t: Tid, fails: bool)
    requires Inv(node, p) && Enabled(p, Store(t, fails))
    ensures Inv(node, Apply(node, p, Store(t, fails)))
  {
    assert JobOk(p.s, node, p.jobs[t]);
    StoreIsSoundIff(p.s.env, node, p.s.cache, p.jobs[t].req, p.jobs[t].reply);
    Moves(node, p, Apply(node, p, Store(t, fails)), t);
  }

  /** What one request of a batch becomes, with the cache as it is at that moment. */
  lemma SlotIsOk(s: Setup, node: Node, req: Request, fault: Fault)
    requires Good(node, s)
    ensures SlotOk(s.env, node, s.rules, s.default, SlotOf(s.env, s.rules, s.default, s.cache, req, fault))
  {
    LoopsAgree(s.rules, s.default, s.env.Hits(req.msg));
    DeciderIsDecisive(s, req.msg);
    CachedIsTheAnswer(s.env, node, s.cache, req.msg, fault);
  }

  lemma ServeKeeps(node: Node, p: Proxy, t: Tid, fault: Fault)
    requires Inv(node, p) && Enabled(p, Serve(t, fault))
    ensures Inv(node, Apply(node, p, Serve(t, fault)))
  {
    var j := p.jobs[t];
    assert JobOk(p.s, node, j);
    SlotIsOk(p.s, node, j.requests[|j.slots|], fault);
    Moves(node, p, Apply(node, p, Serve(t, fault)), t);
  }

  lemma FilledIsOk(env: Env, node: Node, rules: seq<Rule>, default: Action, slots: seq<Slot>)
    requires SlotsOk(env, node, rules, default, slots)
    ensures SlotsOk(env, node, rules, default, Answered(node, slots))
    ensures forall i :: 0 <= i < |slots| ==> Answered(node, slots)[i].response.Some?
  {
    forall i | 0 <= i < |slots|
      ensures SlotOk(env, node, rules, default, Answered(node, slots)[i]) && Answered(node, slots)[i].response.Some?
    {
      assert SlotOk(env, node, rules, default, slots[i]);
      if slots[i].response.None? {
        FilledWithAnswers(node, slots, InFull(node), i);
      }
    }
  }

  lemma FillKeeps(node: Node, p: Proxy, t: Tid)
    requires Inv(node, p) && Enabled(p, Fill(t))
    ensures Inv(node, Apply(node, p, Fill(t)))
  {
    var j := p.jobs[t];
    assert JobOk(p.s, node, j);
    FilledIsOk(p.s.env, node, j.rules, j.default, j.slots);
    Moves(node, p, Apply(node, p, Fill(t)), t);
  }

  lemma KeepKeeps(node: Node, p: Proxy, t: Tid, fails: bool)
    requires Inv(node, p) && Enabled(p, Keep(t, fails))
    ensures Inv(node, Apply(node, p, Keep(t, fails)))
  {
    var j := p.jobs[t];
    assert JobOk(p.s, node, j);
    var slot := j.slots[j.n];
    assert SlotOk(p.s.env, node, j.rules, j.default, slot);
    assert Storable(p.s.env, node, [slot], 1);
    StoredIsSound(p.s.env, node, p.s.cache, [slot], 1);
    Moves(node, p, Apply(node, p, Keep(t, fails)), t);
  }

  lemma FinishKeeps(node: Node, p: Proxy, t: Tid)
    requires Inv(node, p) && Enabled(p, Finish(t))
    ensures Inv(node, Apply(node, p, Finish(t)))
  {
    var j := p.jobs[t];
    assert JobOk(p.s, node, j);
    AnswersOfFull(j.slots, |j.slots|);
    forall i | 0 <= i < |j.slots|
      ensures Answers(j.slots, |j.slots|)[i] == PlainUnder(p.s.env, node, j.rules, j.default, j.slots[i].request.msg)
    {
      assert SlotOk(p.s.env, node, j.rules, j.default, j.slots[i]);
    }
    Moves(node, p, Apply(node, p, Finish(t)), t);
  }

  lemma AroundKeeps(node: Node, p: Proxy, step: Step)
    requires Inv(node, p) && Enabled(p, step) && (step.Expire? || step.NewRules?)
    ensures Inv(node, Apply(node, p, step))
  {
    var p' := Apply(node, p, step);
    if step.Expire? {
      ExpiryIsSound(p.s.env, node, p.s.cache, step.keys);
    }
    forall t | t in p'.jobs
      ensures JobOk(p'.s, node, p'.jobs[t])
    {
      OtherJobs(node, p, p'.s, t);
    }
  }

  /** Every step of every use, in any interleaving, keeps the cache sound and every read plain. */
  lemma StepKeeps(node: Node, p: Proxy, step: Step)
    requires Inv(node, p) && Enabled(p, step)
    ensures Inv(node, Apply(node, p, step)) && Apply(node, p, step).s.env == p.s.env
  {
    match step
    case Begin(t, req, socket, fault) => BeginKeeps(node, p, t, req, socket, fault);
    case Reply(t) => ReplyKeeps(node, p, t);
    case Store(t, fails) => StoreKeeps(node, p, t, fails);
    case BeginBatch(t, _) => Moves(node, p, Apply(node, p, step), t);
    case Serve(t, fault) => ServeKeeps(node, p, t, fault);
    case Send(t) => assert JobOk(p.s, node, p.jobs[t]); Moves(node, p, Apply(node, p, step), t);
    case Fill(t) => FillKeeps(node, p, t);
    case Keep(t, fails) => KeepKeeps(node, p, t, fails);
    case Finish(t) => FinishKeeps(node, p, t);
    case Expire(_) => AroundKeeps(node, p, step);
    case NewRules(_, _) => AroundKeeps(node, p, step);
  }

  lemma {:induction false} RunKeeps(node: Node, p: Proxy, steps: seq<Step>)
    requires Inv(node, p)
    ensures Inv(node, Run(node, p, steps)) && Run(node, p, steps).s.env == p.s.env
  {
    if steps != [] {
      RunKeeps(node, p, steps[..|steps| - 1]);
      var before := Run(node, p, steps[..|steps| - 1]);
      if Enabled(before, steps[|steps| - 1]) {
        StepKeeps(node, before, steps[|steps| - 1]);
      }
    }
  }

  // ----- which use a read ends

  /** Step `i` began the use that ended with `r`, under the rules that `r` names.  There is no reply only if
      the use is a request over a WebSocket whose cache entry vanishes between test and read. */
  ghost predicate BeganAt(node: Node, p0: Proxy, steps: seq<Step>, i: nat, r: Read)
    requires i < |steps|
  {
    var now := Run(node, p0, steps[..i]);
    && Enabled(now, steps[i]) && now.s.rules == r.rules && now.s.default == r.default
    && match r
       case OneRead(req, _, _, reply) =>
         && steps[i].Begin? && steps[i].req == req
         && (reply == None ==> steps[i].socket && steps[i].fault.Vanish? && now.s.env.KeyOf(req) in now.s.cache)
       case ManyRead(requests, _, _, _) => steps[i].BeginBatch? && steps[i].requests == requests
  }

  ghost predicate Began(node: Node, p0: Proxy, steps: seq<Step>, r: Read) {
    exists i :: 0 <= i < |steps| && BeganAt(node, p0, steps, i, r)
  }

  /** The read that a job is to end with, but for its reply. */
  ghost function Heading(node: Node, s: Setup, job: Job): Option<Read> {
    match job
    case Waiting(req, _) => Some(OneRead(req, s.rules, s.default, Some(Answer(node, req))))
    case Storing(_, _, _) => None
    case Partitioning(requests, _) => Some(ManyRead(requests, s.rules, s.default, []))
    case Asking(slots, rules, default) => Some(ManyRead(Requests(slots), rules, default, []))
    case Keeping(slots, _, rules, default) => Some(ManyRead(Requests(slots), rules, default, []))
  }

  ghost predicate JobBegan(node: Node, p0: Proxy, steps: seq<Step>, s: Setup, job: Job) {
    var r := Heading(node, s, job);
    r.Some? ==> Began(node, p0, steps, r.value)
  }

  /** Every read, and every job that has one to come, was begun by a step under its rules. */
  ghost predicate Traced(node: Node, p0: Proxy, steps: seq<Step>, p: Proxy) {
    && (forall t :: t in p.jobs ==> JobBegan(node, p0, steps, p.s, p.jobs[t]))
    && (forall r :: r in p.seen ==> Began(node, p0, steps, r))
  }

  lemma StillBegan(node: Node, p0: Proxy, steps: seq<Step>, step: Step, r: Read)
    requires Began(node, p0, steps, r)
    ensures Began(node, p0, steps + [step], r)
  {
    var i :| 0 <= i < |steps| && BeganAt(node, p0, steps, i, r);
    assert (steps + [step])[..i] == steps[..i] && (steps + [step])[i] == steps[i];
    assert BeganAt(node, p0, steps + [step], i, r);
  }

  lemma TracedGrows(node: Node, p0: Proxy, steps: seq<Step>, step: Step, p: Proxy)
    requires Traced(node, p0, steps, p)
    ensures Traced(node, p0, steps + [step], p)
  {
    forall t | t in p.jobs && Heading(node, p.s, p.jobs[t]).Some?
      ensures Began(node, p0, steps + [step], Heading(node, p.s, p.jobs[t]).value)
    {
      assert JobBegan(node, p0, steps, p.s, p.jobs[t]);
      StillBegan(node, p0, steps, step, Heading(node, p.s, p.jobs[t]).value);
    }
    forall r | r in p.seen
      ensures Began(node, p0, steps + [step], r)
    {
      StillBegan(node, p0, steps, step, r);
    }
  }

  lemma JustBegan(node: Node, p0: Proxy, steps: seq<Step>, step: Step, r: Read)
    requires Enabled(Run(node, p0, steps), step)
    requires BeganAt(node, p0, steps + [step], |steps|, r)
    ensures Began(node, p0, steps + [step], r)
  {
  }

  /** A use begins: a job, or a read at once. */
  lemma BeginTraced(node: Node, p0: Proxy, steps: seq<Step>, p: Proxy, step: Step)
    requires Run(node, p0, steps) == p && Enabled(p, step) && (step.Begin? || step.BeginBatch?)
    requires Traced(node, p0, steps + [step], p)
    ensures Traced(node, p0, steps + [step], Apply(node, p, step))
  {
    var p' := Apply(node, p, step);
    assert (steps + [step])[..|steps|] == steps;
    if p'.seen != p.seen {
      JustBegan(node, p0, steps, step, p'.seen[|p.seen|]);
    } else {
      JustBegan(node, p0, steps, step, Heading(node, p.s, p'.jobs[step.t]).value);
    }
  }

  /** A job goes on, or ends with the read that it was heading for. */
  lemma MoveTraced(node: Node, p0: Proxy, steps: seq<Step>, p: Proxy, p': Proxy, t: Tid)
    requires Traced(node, p0, steps, p) && t in p.jobs
    requires p'.s.rules == p.s.rules && p'.s.default == p.s.default
    requires forall u :: u in p'.jobs && u != t ==> u in p.jobs && p'.jobs[u] == p.jobs[u]
    requires t in p'.jobs ==>
      Heading(node, p'.s, p'.jobs[t]).None? || Heading(node, p'.s, p'.jobs[t]) == Heading(node, p.s, p.jobs[t])
    requires
      || p'.seen == p.seen
      || (&& |p'.seen| == |p.seen| + 1 && p'.seen[..|p.seen|] == p.seen && Heading(node, p.s, p.jobs[t]).Some?
          && EndsAs(Heading(node, p.s, p.jobs[t]).value, p'.seen[|p.seen|]))
    ensures Traced(node, p0, steps, p')
  {
    forall u | u in p'.jobs
      ensures JobBegan(node, p0, steps, p'.s, p'.jobs[u])
    {
      assert u in p.jobs && JobBegan(node, p0, steps, p.s, p.jobs[u]);
      assert u != t ==> Heading(node, p'.s, p'.jobs[u]) == Heading(node, p.s, p.jobs[u]);
    }
    if p'.seen != p.seen {
      SameBegan(node, p0, steps, Heading(node, p.s, p.jobs[t]).value, p'.seen[|p.seen|]);
    }
  }

  /** The replies of a batch do not matter for where it began. */
  predicate EndsAs(r: Read, end: Read) {
    end == r || (end.ManyRead? && r.ManyRead? && r.(replies := end.replies) == end)
  }

  lemma SameBegan(node: Node, p0: Proxy, steps: seq<Step>, r: Read, end: Read)
    requires Began(node, p0, steps, r) && EndsAs(r, end)
    ensures Began(node, p0, steps, end)
  {
    var i :| 0 <= i < |steps| && BeganAt(node, p0, steps, i, r);
    assert BeganAt(node, p0, steps, i, end);
  }

  /** Rules and cache change around the jobs. */
  lemma AroundTraced(node: Node, p0: Proxy, steps: seq<Step>, p: Proxy, step: Step)
    requires Traced(node, p0, steps, p) && Enabled(p, step) && (step.Expire? || step.NewRules?)
    ensures Traced(node, p0, steps, Apply(node, p, step))
  {
    var p' := Apply(node, p, step);
    forall t | t in p'.jobs
      ensures JobBegan(node, p0, steps, p'.s, p'.jobs[t])
    {
      assert JobBegan(node, p0, steps, p.s, p.jobs[t]);
      assert Heading(node, p'.s, p.jobs[t]) == Heading(node, p.s, p.jobs[t]);
    }
  }

  lemma StepTraced(node: Node, p0: Proxy, steps: seq<Step>, p: Proxy, step: Step)
    requires Run(node, p0, steps) == p && Enabled(p, step) && Inv(node, p) && Traced(node, p0, steps, p)
    ensures Traced(node, p0, steps + [step], Apply(node, p, step))
  {
    TracedGrows(node, p0, steps, step, p);
    match step
    case Begin(_, _, _, _) => BeginTraced(node, p0, steps, p, step);
    case BeginBatch(_, _) => BeginTraced(node, p0, steps, p, step);
    case Expire(_) => AroundTraced(node, p0, steps + [step], p, step);
    case NewRules(_, _) => AroundTraced(node, p0, steps + [step], p, step);
    case _ => GoesOnTraced(node, p0, steps + [step], p, step);
  }

  lemma GoesOnTraced(node: Node, p0: Proxy, steps: seq<Step>, p: Proxy, step: Step)
    requires Inv(node, p) && Enabled(p, step) && Traced(node, p0, steps, p)
    requires !step.Begin? && !step.BeginBatch? && !step.Expire? && !step.NewRules?
    ensures Traced(node, p0, steps, Apply(node, p, step))
  {
    KeepsHeading(node, p, step);
    MoveTraced(node, p0, steps, p, Apply(node, p, step), step.t);
  }

  /** Within a job the requests stay those of its use. */
  lemma KeepsHeading(node: Node, p: Proxy, step: Step)
    requires Inv(node, p) && Enabled(p, step)
    requires !step.Begin? && !step.BeginBatch? && !step.Expire? && !step.NewRules?
    ensures
      var p' := Apply(node, p, step);
      var before := Heading(node, p.s, p.jobs[step.t]);
      && (step.t in p'.jobs ==>
            Heading(node, p'.s, p'.jobs[step.t]).None? || Heading(node, p'.s, p'.jobs[step.t]) == before)
      && (p'.seen == p.seen
          || (&& |p'.seen| == |p.seen| + 1 && p'.seen[..|p.seen|] == p.seen && before.Some?
              && EndsAs(before.value, p'.seen[|p.seen|])))
  {
    assert JobOk(p.s, node, p.jobs[step.t]);
    match step
    case Send(t) => assert Requests(p.jobs[t].slots) == p.jobs[t].requests;
    case Fill(t) => assert Requests(Answered(node, p.jobs[t].slots)) == Requests(p.jobs[t].slots);
    case _ =>
  }

  lemma {:induction false} RunTraced(node: Node, p0: Proxy, steps: seq<Step>)
    requires Inv(node, p0) && p0.jobs == map[] && p0.seen == []
    ensures Traced(node, p0, steps, Run(node, p0, steps))
  {
    if steps != [] {
      var front, last := steps[..|steps| - 1], steps[|steps| - 1];
      RunTraced(node, p0, front);
      RunKeeps(node, p0, front);
      assert front + [last] == steps;
      if Enabled(Run(node, p0, front), last) {
        StepTraced(node, p0, front, Run(node, p0, front), last);
      } else {
        TracedGrows(node, p0, front, last, Run(node, p0, front));
      }
    }
  }

  /** However the three loops interleave on the shared cache, whatever expires and however the rules are
      replaced, what a client reads belongs to the request that it made, and is what a proxy without cache
      and without batches would have sent it under the rules in force when it made the request.  The one
      exception is a WebSocket request whose cache entry vanishes between test and read: it has no reply. */
  lemma EveryReadIsPlain(node: Node, s: Setup, steps: seq<Step>, r: Read)
    requires Good(node, s) && r in Run(node, Proxy(s, map[], []), steps).seen
    ensures ReadOk(s.env, node, r)
    ensures exists i :: 0 <= i < |steps| && BeganAt(node, Proxy(s, map[], []), steps, i, r)
  {
    RunKeeps(node, Proxy(s, map[], []), steps);
    RunTraced(node, Proxy(s, map[], []), steps);
    assert Began(node, Proxy(s, map[], []), steps, r);
  }
}
