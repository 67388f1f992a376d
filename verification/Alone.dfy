/** The interleaved loops and the loops call by call: a use that nothing interrupts ends as its method does,
    and no use is lost. */
module Alone {
  import opened Messages
  import opened Caching
  import opened Batch
  import opened Handlers
  import opened Transparency
  import opened WebSocket
  import opened Interleaving

  lemma {:induction false} RunConcat(node: Node, p: Proxy, first: seq<Step>, second: seq<Step>)
    ensures Run(node, p, first + second) == Run(node, Run(node, p, first), second)
  {
    if second == [] {
      assert first + second == first;
    } else {
      var front := second[..|second| - 1];
      RunConcat(node, p, first, front);
      assert (first + second)[..|first + second| - 1] == first + front;
    }
  }

  lemma RunOne(node: Node, p: Proxy, step: Step)
    requires Enabled(p, step)
    ensures Run(node, p, [step]) == Apply(node, p, step)
  {
    assert [step][..0] == [];
  }

  // ----- one request

  /** A request over HTTP, from its decision to its write to the cache. */
  function SingleSteps(t: Tid, req: Msg, fault: Fault, fails: bool): seq<Step> {
    [Begin(t, req, false, fault)] + [Reply(t)] + [Store(t, fails)]
  }

  /** An ordinary request over a WebSocket. */
  function SocketSteps(t: Tid, req: Msg, fault: Fault, fails: bool): seq<Step> {
    [Begin(t, req, true, fault)] + [Reply(t)] + [Store(t, fails)]
  }

  lemma RunThree(node: Node, p: Proxy, a: Step, b: Step, c: Step)
    ensures Run(node, p, [a] + [b] + [c]) == Run(node, Run(node, Run(node, p, [a]), [b]), [c])
  {
    RunConcat(node, p, [a] + [b], [c]);
    RunConcat(node, p, [a], [b]);
  }

  lemma RunSkips(node: Node, p: Proxy, step: Step)
    requires !Enabled(p, step)
    ensures Run(node, p, [step]) == p
  {
    assert [step][..0] == [];
  }

  ghost predicate IsVerdict(s: Setup, req: Msg, socket: bool, fault: Fault, v: Verdict) {
    v == if socket then s.Socket(req, fault) else s.Single(req, fault)
  }

  /** A request that goes upstream: three steps, one read, at most one write. */
  lemma Asked(node: Node, p: Proxy, t: Tid, req: Msg, socket: bool, fault: Fault, fails: bool, v: Verdict)
    requires t !in p.jobs && (socket ==> !HasSubscriptionMethod(req))
    requires IsVerdict(p.s, req, socket, fault, v) && v.Ask?
    ensures
      var reply := node(req.verb, req.params).(id := req.id);
      var cache := if fails then p.s.cache else Offered(p.s.cache, v, p.s.env.KeyOf(req), reply);
      Run(node, p, [Begin(t, req, socket, fault)] + [Reply(t)] + [Store(t, fails)]) ==
      Proxy(p.s.(cache := cache), p.jobs, p.seen + [OneRead(req, p.s.rules, p.s.default, Some(reply))])
  {
    RunThree(node, p, Begin(t, req, socket, fault), Reply(t), Store(t, fails));
    RunOne(node, p, Begin(t, req, socket, fault));
    var begun := Apply(node, p, Begin(t, req, socket, fault));
    RunOne(node, begun, Reply(t));
    var replied := Apply(node, begun, Reply(t));
    RunOne(node, replied, Store(t, fails));
    assert replied.jobs - {t} == p.jobs;
  }

  lemma NotAsked(node: Node, p: Proxy, t: Tid, req: Msg, socket: bool, fault: Fault, fails: bool, v: Verdict)
    requires t !in p.jobs && (socket ==> !HasSubscriptionMethod(req))
    requires IsVerdict(p.s, req, socket, fault, v) && !v.Ask?
    ensures
      Run(node, p, [Begin(t, req, socket, fault)] + [Reply(t)] + [Store(t, fails)]) ==
      p.(seen := p.seen + [OneRead(req, p.s.rules, p.s.default, Written(v, req, None))])
  {
    RunThree(node, p, Begin(t, req, socket, fault), Reply(t), Store(t, fails));
    RunOne(node, p, Begin(t, req, socket, fault));
    var begun := Apply(node, p, Begin(t, req, socket, fault));
    RunSkips(node, begun, Reply(t));
    RunSkips(node, begun, Store(t, fails));
  }

  /** Uninterrupted, the steps of a request over HTTP write what `HandleHttpSingle` writes and leave the cache
      that it leaves. */
  lemma SingleAlone(node: Node, p: Proxy, t: Tid, req: Msg, fault: Fault, fails: bool)
    requires t !in p.jobs
    ensures
      var v := p.s.Single(req, fault);
      var body := Some(node(req.verb, req.params).(id := req.id));
      var cache := if fails then p.s.cache else Offered(p.s.cache, v, p.s.env.KeyOf(req), Parsed(body));
      Run(node, p, SingleSteps(t, req, fault, fails)) ==
      Proxy(p.s.(cache := cache), p.jobs, p.seen + [OneRead(req, p.s.rules, p.s.default, Written(v, req, body))])
  {
    var v := p.s.Single(req, fault);
    if v.Ask? {
      Asked(node, p, t, req, false, fault, fails, v);
    } else {
      NotAsked(node, p, t, req, false, fault, fails, v);
    }
  }

  /** The same for an ordinary request over a WebSocket. */
  lemma SocketAlone(node: Node, p: Proxy, t: Tid, req: Msg, fault: Fault, stores: bool)
    requires t !in p.jobs && !HasSubscriptionMethod(req)
    ensures
      var v := p.s.Socket(req, fault);
      var reply := SocketReply(v, req, node(req.verb, req.params));
      var cache := StoredAfter(p.s.cache, v, p.s.env.KeyOf(req), reply, Ending(true, stores));
      Run(node, p, SocketSteps(t, req, fault, !stores)) ==
      Proxy(p.s.(cache := cache), p.jobs, p.seen + [OneRead(req, p.s.rules, p.s.default, reply)])
  {
    var v := p.s.Socket(req, fault);
    if v.Ask? {
      Asked(node, p, t, req, true, fault, !stores, v);
    } else {
      NotAsked(node, p, t, req, true, fault, !stores, v);
    }
  }

  // ----- a batch

  function Serves(t: Tid, faults: nat -> Fault, n: nat): seq<Step> {
    seq(n, i requires 0 <= i < n => Serve(t, faults(i)))
  }

  function Keeps(t: Tid, fails: nat -> bool, n: nat): seq<Step> {
    seq(n, i requires 0 <= i < n => Keep(t, fails(i)))
  }

  /** A batch of `n` requests, from the loop over the requests to the reply. */
  function BatchSteps(t: Tid, requests: seq<Request>, faults: nat -> Fault, fails: nat -> bool): seq<Step> {
    [BeginBatch(t, requests)] + Serves(t, faults, |requests|) + ([Send(t)] + [Fill(t)])
    + (Keeps(t, fails, |requests|) + [Finish(t)])
  }

  lemma {:induction false} RunServes(node: Node, p: Proxy, t: Tid, requests: seq<Request>, faults: nat -> Fault, n: nat)
    requires n <= |requests| && t in p.jobs && p.jobs[t] == Partitioning(requests, [])
    ensures
      var slots := SlotsOf(p.s.env, p.s.rules, p.s.default, p.s.cache, requests, faults, n);
      Run(node, p, Serves(t, faults, n)) == p.(jobs := p.jobs[t := Partitioning(requests, slots)])
  {
    if n == 0 {
      assert p.jobs[t := p.jobs[t]] == p.jobs;
    } else {
      RunServes(node, p, t, requests, faults, n - 1);
      assert Serves(t, faults, n)[..n - 1] == Serves(t, faults, n - 1);
      SlotsGrow(p.s.env, p.s.rules, p.s.default, p.s.cache, requests, faults, n - 1);
    }
  }

  /** What is stored, and how far the loop has come, after `n` turns. */
  ghost function KeptAfter(p: Proxy, t: Tid, fails: nat -> bool, n: nat): Proxy
    requires t in p.jobs && p.jobs[t].Keeping? && n <= |p.jobs[t].slots|
  {
    var slots := p.jobs[t].slots;
    var m := Reached(slots, fails, n);
    p.(s := p.s.(cache := Stored(p.s.cache, slots, m)),
       jobs := p.jobs[t := p.jobs[t].(n := if m == n then n else |slots|)])
  }

  lemma {:induction false} KeepsOneMore(node: Node, p: Proxy, t: Tid, fails: nat -> bool, n: nat)
    requires t in p.jobs && p.jobs[t].Keeping? && n < |p.jobs[t].slots|
    ensures
      var now := KeptAfter(p, t, fails, n);
      KeptAfter(p, t, fails, n + 1) ==
      if Enabled(now, Keep(t, fails(n))) then Apply(node, now, Keep(t, fails(n))) else now
  {
    var slots := p.jobs[t].slots;
    if Reached(slots, fails, n) == n {
      KeptIsStored(p.s.cache, slots, n);
    }
  }

  lemma {:induction false} KeptIsStored(cache: map<Key, Msg>, slots: seq<Slot>, n: nat)
    requires n < |slots|
    ensures Kept(Stored(cache, slots, n), slots[n]) == Stored(cache, slots, n + 1)
  {
    assert Stored(Stored(cache, slots, n), [slots[n]], 0) == Stored(cache, slots, n);
  }

  lemma {:induction false} RunKeeping(node: Node, p: Proxy, t: Tid, fails: nat -> bool, n: nat)
    requires t in p.jobs && p.jobs[t].Keeping? && p.jobs[t].n == 0 && n <= |p.jobs[t].slots|
    ensures Run(node, p, Keeps(t, fails, n)) == KeptAfter(p, t, fails, n)
  {
    if n == 0 {
      assert p.jobs[t := p.jobs[t]] == p.jobs;
    } else {
      RunKeeping(node, p, t, fails, n - 1);
      assert Keeps(t, fails, n)[..n - 1] == Keeps(t, fails, n - 1);
      KeepsOneMore(node, p, t, fails, n - 1);
    }
  }

  lemma {:induction false} NothingToKeep(node: Node, p: Proxy, t: Tid, fails: nat -> bool, n: nat)
    requires t in p.jobs && p.jobs[t].Keeping? && p.jobs[t].n == |p.jobs[t].slots|
    ensures Run(node, p, Keeps(t, fails, n)) == p
  {
    if n > 0 {
      NothingToKeep(node, p, t, fails, n - 1);
      assert Keeps(t, fails, n)[..n - 1] == Keeps(t, fails, n - 1);
    }
  }

  /** The loop over the requests. */
  lemma {:induction false} BatchServes(node: Node, p: Proxy, t: Tid, requests: seq<Request>, faults: nat -> Fault)
    requires t !in p.jobs
    ensures Run(node, p, [BeginBatch(t, requests)] + Serves(t, faults, |requests|)) ==
            p.(jobs := p.jobs[t := Partitioning(requests, p.s.Slots(requests, faults))])
  {
    RunConcat(node, p, [BeginBatch(t, requests)], Serves(t, faults, |requests|));
    RunOne(node, p, BeginBatch(t, requests));
    RunServes(node, Apply(node, p, BeginBatch(t, requests)), t, requests, faults, |requests|);
  }

  /** Upstream is asked and answers. */
  lemma {:induction false} BatchFills(node: Node, p: Proxy, t: Tid, requests: seq<Request>, slots: seq<Slot>)
    requires t in p.jobs && p.jobs[t] == Partitioning(requests, slots) && |slots| == |requests|
    ensures
      var n := if Pending(slots, |slots|) == [] then |slots| else 0;
      Run(node, p, [Send(t)] + [Fill(t)]) ==
      p.(jobs := p.jobs[t := Keeping(Answered(node, slots), n, p.s.rules, p.s.default)])
  {
    RunConcat(node, p, [Send(t)], [Fill(t)]);
    RunOne(node, p, Send(t));
    RunOne(node, Apply(node, p, Send(t)), Fill(t));
  }

  /** The second half, in which the slots go to the cache and to the client. */
  lemma {:induction false} BatchEnds(node: Node, p: Proxy, t: Tid, slots: seq<Slot>, n: nat, fails: nat -> bool)
    requires t in p.jobs && p.jobs[t] == Keeping(slots, n, p.s.rules, p.s.default)
    requires n == 0 || n == |slots|
    ensures
      var m := if n == 0 then Reached(slots, fails, |slots|) else 0;
      Run(node, p, Keeps(t, fails, |slots|) + [Finish(t)]) ==
      Proxy(p.s.(cache := Stored(p.s.cache, slots, m)), p.jobs - {t},
            p.seen + [ManyRead(Requests(slots), p.s.rules, p.s.default, Answers(slots, |slots|))])
  {
    RunConcat(node, p, Keeps(t, fails, |slots|), [Finish(t)]);
    if n == 0 {
      RunKeeping(node, p, t, fails, |slots|);
    } else {
      NothingToKeep(node, p, t, fails, |slots|);
    }
    var kept := Run(node, p, Keeps(t, fails, |slots|));
    RunOne(node, kept, Finish(t));
    assert kept.jobs - {t} == p.jobs - {t};
  }

  lemma {:induction false} BatchUpToAnswers(node: Node, p: Proxy, t: Tid, requests: seq<Request>, faults: nat -> Fault,
                                            fails: nat -> bool)
    requires t !in p.jobs
    ensures
      Run(node, p, BatchSteps(t, requests, faults, fails)) ==
      Run(node, AnsweredBatch(node, p, t, p.s.Slots(requests, faults)), Keeps(t, fails, |requests|) + [Finish(t)])
  {
    var slots := p.s.Slots(requests, faults);
    var served := p.(jobs := p.jobs[t := Partitioning(requests, slots)]);
    BatchServes(node, p, t, requests, faults);
    BatchWaits(node, p, t, requests, slots);
    BatchParts(node, p, t, requests, faults, fails, served, AnsweredBatch(node, p, t, slots));
  }

  lemma {:induction false} BatchWaits(node: Node, p: Proxy, t: Tid, requests: seq<Request>, slots: seq<Slot>)
    requires t !in p.jobs && |slots| == |requests|
    ensures Run(node, p.(jobs := p.jobs[t := Partitioning(requests, slots)]), [Send(t)] + [Fill(t)]) ==
            AnsweredBatch(node, p, t, slots)
  {
    var served := p.(jobs := p.jobs[t := Partitioning(requests, slots)]);
    BatchFills(node, served, t, requests, slots);
    var waiting := AnsweredBatch(node, p, t, slots);
    assert served.jobs[t := waiting.jobs[t]] == waiting.jobs;
  }

  lemma RequestsOfSlots(s: Setup, requests: seq<Request>, faults: nat -> Fault)
    ensures Requests(s.Slots(requests, faults)) == requests
  {
    var slots := s.Slots(requests, faults);
    forall i | 0 <= i < |slots|
      ensures slots[i].request == requests[i]
    {
      assert slots[i] == SlotOf(s.env, s.rules, s.default, s.cache, requests[i], faults(i));
    }
  }

  /** Upstream has answered, and the slots are to be stored. */
  ghost function AnsweredBatch(node: Node, p: Proxy, t: Tid, slots: seq<Slot>): Proxy {
    var n := if Pending(slots, |slots|) == [] then |slots| else 0;
    p.(jobs := p.jobs[t := Keeping(Answered(node, slots), n, p.s.rules, p.s.default)])
  }

  /** The client has read the slots. */
  ghost function ReadBatch(node: Node, p: Proxy, slots: seq<Slot>, fails: nat -> bool): Proxy {
    Proxy(p.s.(cache := BatchCache(p.s.cache, slots, InFull(node), fails)), p.jobs,
          p.seen + [ManyRead(Requests(slots), p.s.rules, p.s.default, Answers(Answered(node, slots), |slots|))])
  }

  lemma {:induction false} SameRequests(node: Node, slots: seq<Slot>)
    ensures Requests(Answered(node, slots)) == Requests(slots)
  {
  }

  lemma {:induction false} BatchFinishes(node: Node, p: Proxy, t: Tid, slots: seq<Slot>, fails: nat -> bool)
    requires t !in p.jobs
    ensures Run(node, AnsweredBatch(node, p, t, slots), Keeps(t, fails, |slots|) + [Finish(t)]) ==
            ReadBatch(node, p, slots, fails)
  {
    var waiting := AnsweredBatch(node, p, t, slots);
    BatchEnds(node, waiting, t, Answered(node, slots), waiting.jobs[t].n, fails);
    assert waiting.jobs - {t} == p.jobs;
    SameRequests(node, slots);
    BatchResult(node, p.s.cache, slots, fails);
  }

  lemma {:induction false} BatchParts(node: Node, p: Proxy, t: Tid, requests: seq<Request>, faults: nat -> Fault,
                                      fails: nat -> bool, served: Proxy, waiting: Proxy)
    requires Run(node, p, [BeginBatch(t, requests)] + Serves(t, faults, |requests|)) == served
    requires Run(node, served, [Send(t)] + [Fill(t)]) == waiting
    ensures Run(node, p, BatchSteps(t, requests, faults, fails)) ==
            Run(node, waiting, Keeps(t, fails, |requests|) + [Finish(t)])
  {
    var first := [BeginBatch(t, requests)] + Serves(t, faults, |requests|);
    RunConcat(node, p, first + ([Send(t)] + [Fill(t)]), Keeps(t, fails, |requests|) + [Finish(t)]);
    RunConcat(node, p, first, [Send(t)] + [Fill(t)]);
  }

  /** Reply and cache, from the slots as upstream has filled them. */
  lemma {:induction false} BatchResult(node: Node, cache: map<Key, Msg>, slots: seq<Slot>, fails: nat -> bool)
    ensures
      var filled := Answered(node, slots);
      var m := if Pending(slots, |slots|) == [] then 0 else Reached(filled, fails, |slots|);
      && BatchOut(slots, InFull(node)) == Ok(Answers(filled, |slots|))
      && BatchCache(cache, slots, InFull(node), fails) == Stored(cache, filled, m)
  {
    if Pending(slots, |slots|) == [] {
      NonePending(slots, InFull(node)(Bodies([])).value);
    }
  }

  lemma {:induction false} NonePending(slots: seq<Slot>, replies: seq<Msg>)
    requires Pending(slots, |slots|) == [] && |replies| == Rank(slots, |slots|)
    ensures Filled(slots, replies) == slots
  {
    forall i | 0 <= i < |slots|
      ensures slots[i].response.Some?
    {
      RankGrows(slots, i, |slots|);
    }
  }

  /** Uninterrupted, the steps of a batch write what `HandleHttpBatch` writes and leave the cache that it
      leaves. */
  lemma {:induction false} BatchAlone(node: Node, p: Proxy, t: Tid, requests: seq<Request>, faults: nat -> Fault,
                                      fails: nat -> bool)
    requires t !in p.jobs
    ensures
      var slots := p.s.Slots(requests, faults);
      var out := BatchOut(slots, InFull(node));
      && out.Ok?
      && Run(node, p, BatchSteps(t, requests, faults, fails)) ==
         Proxy(p.s.(cache := BatchCache(p.s.cache, slots, InFull(node), fails)), p.jobs,
               p.seen + [ManyRead(requests, p.s.rules, p.s.default, out.value)])
  {
    var slots := p.s.Slots(requests, faults);
    BatchUpToAnswers(node, p, t, requests, faults, fails);
    BatchFinishes(node, p, t, slots, fails);
    RequestsOfSlots(p.s, requests, faults);
    BatchResult(node, p.s.cache, slots, fails);
  }

  // ----- no use is lost

  ghost function Begins(p: Proxy, step: Step): nat {
    if Enabled(p, step) && (step.Begin? || step.BeginBatch?) then 1 else 0
  }

  /** How many uses have begun. */
  ghost function Begun(node: Node, p: Proxy, steps: seq<Step>): nat {
    if steps == [] then 0
    else
      var front := steps[..|steps| - 1];
      Begun(node, p, front) + Begins(Run(node, p, front), steps[|steps| - 1])
  }

  /** Jobs whose clients have not read yet. */
  function Unread(jobs: map<Tid, Job>): set<Tid> {
    set t | t in jobs && !jobs[t].Storing?
  }

  lemma UnreadWith(jobs: map<Tid, Job>, t: Tid, job: Job)
    ensures |Unread(jobs[t := job])| ==
            |Unread(jobs) - {t}| + if job.Storing? then 0 else 1
  {
    assert Unread(jobs[t := job]) == (Unread(jobs) - {t}) + if job.Storing? then {} else {t};
  }

  lemma UnreadWithout(jobs: map<Tid, Job>, t: Tid)
    ensures Unread(jobs - {t}) == Unread(jobs) - {t}
  {
  }

  /** The job of the step, and no other, is set or goes. */
  lemma JobMoves(node: Node, p: Proxy, step: Step)
    requires Enabled(p, step) && !step.Expire? && !step.NewRules?
    ensures
      var jobs := Apply(node, p, step).jobs;
      if step.t in jobs then jobs == p.jobs[step.t := jobs[step.t]] else jobs == p.jobs - {step.t}
  {
  }

  /** It is read at most once. */
  lemma JobReads(node: Node, p: Proxy, step: Step)
    requires Enabled(p, step) && !step.Expire? && !step.NewRules?
    ensures
      var p' := Apply(node, p, step);
      var before := if step.t in p.jobs && !p.jobs[step.t].Storing? then 1 else 0;
      var after := if step.t in p'.jobs && !p'.jobs[step.t].Storing? then 1 else 0;
      |p'.seen| + after == |p.seen| + before + Begins(p, step)
  {
  }

  lemma JobCounts(node: Node, p: Proxy, step: Step)
    requires Enabled(p, step) && !step.Expire? && !step.NewRules?
    ensures |Apply(node, p, step).seen| + |Unread(Apply(node, p, step).jobs)| ==
            |p.seen| + |Unread(p.jobs)| + Begins(p, step)
  {
    JobMoves(node, p, step);
    JobReads(node, p, step);
    UnreadCounts(p.jobs, Apply(node, p, step).jobs, step.t);
  }

  lemma UnreadCounts(jobs: map<Tid, Job>, jobs': map<Tid, Job>, t: Tid)
    requires if t in jobs' then jobs' == jobs[t := jobs'[t]] else jobs' == jobs - {t}
    ensures
      |Unread(jobs')| - (if t in jobs' && !jobs'[t].Storing? then 1 else 0) ==
      |Unread(jobs)| - (if t in jobs && !jobs[t].Storing? then 1 else 0)
  {
    if t in jobs' {
      UnreadWith(jobs, t, jobs'[t]);
    } else {
      UnreadWithout(jobs, t);
    }
    assert t in jobs && !jobs[t].Storing? <==> t in Unread(jobs);
  }

  lemma StepCounts(node: Node, p: Proxy, step: Step)
    requires Enabled(p, step)
    ensures |Apply(node, p, step).seen| + |Unread(Apply(node, p, step).jobs)| ==
            |p.seen| + |Unread(p.jobs)| + Begins(p, step)
  {
    if !step.Expire? && !step.NewRules? {
      JobCounts(node, p, step);
    }
  }

  /** Every use that began has been read once, or is under way. */
  lemma {:induction false} UsesAreReadOnce(node: Node, s: Setup, steps: seq<Step>)
    ensures
      var p := Run(node, Proxy(s, map[], []), steps);
      Begun(node, Proxy(s, map[], []), steps) == |p.seen| + |Unread(p.jobs)|
  {
    if steps != [] {
      var front := steps[..|steps| - 1];
      UsesAreReadOnce(node, s, front);
      var p := Run(node, Proxy(s, map[], []), front);
      if Enabled(p, steps[|steps| - 1]) {
        StepCounts(node, p, steps[|steps| - 1]);
      }
    }
  }
}
