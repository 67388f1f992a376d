/** The history is what clients have asked for: every effective subscription and unsubscription comes from a
    request of that client. */
module Requests {
  import opened Messages
  import opened Subscriptions
  import opened Machine
  import opened Frames

  /** The step is the client's request for what the event records.  A request to unsubscribe that begins with
      "0x" names a subscription by its id, any other by its query; unsubscribe_all names the ids it lists. */
  predicate Says(step: Step, e: Event) {
    match e
    case Joined(client, param, cid, _) => step == Add(AddEnter(client, param, cid))
    case Left(client, target) =>
      && step.Rem?
      && match step.rem
         case RemFind(_, cl, p) =>
           cl == client
           && target == (if |p.text| >= 2 && p.text[0] == '0' && p.text[1] == 'x' then ById(p) else ByQuery(p))
         case AllEnter(cl, ids) => cl == client && target.ById? && target.sid in ids
         case _ => false
  }

  ghost predicate SaidAt(s0: S, steps: seq<Step>, i: nat, e: Event)
    requires i < |steps|
  {
    Enabled(Run(s0, steps[..i]), steps[i]) && Says(steps[i], e)
  }

  ghost predicate Said(s0: S, steps: seq<Step>, e: Event) {
    exists i :: 0 <= i < |steps| && SaidAt(s0, steps, i, e)
  }

  /** What the holder of the mutex is about to record for the subscribe that it performs. */
  function StageAsk(stage: Stage): Option<Event> {
    match stage
    case AddCall(client, param, cid) => Some(Joined(client, param, cid, NoName))
    case AddSent(client, param, cid, _, _, _) => Some(Joined(client, param, cid, NoName))
    case AddGot(client, param, cid, _, _, _) => Some(Joined(client, param, cid, NoName))
    case AddAck(client, param, cid, _, _) => Some(Joined(client, param, cid, NoName))
    case AddPooled(client, param, cid, _) => Some(Joined(client, param, cid, NoName))
    case AddJoin(client, param, cid, _) => Some(Joined(client, param, cid, NoName))
    case _ => None
  }

  /** The loop of unsubscribe_all: its client, and the ids that it has not come to. */
  datatype Loop = Loop(client: Client, ids: seq<Id>)

  function ThenLoop(next: Then): Option<Loop> {
    match next
    case Finish => None
    case More(client, rest) => Some(Loop(client, rest))
  }

  function StageLoop(stage: Stage): Option<Loop> {
    match stage
    case AllLoop(client, ids) => Some(Loop(client, ids))
    case AllCheck(client, _, ids) => Some(Loop(client, ids))
    case TearCall(_, next) => ThenLoop(next)
    case TearSent(_, _, _, _, _, next) => ThenLoop(next)
    case TearGot(_, _, _, _, next) => ThenLoop(next)
    case TearAck(_, next) => ThenLoop(next)
    case TearPooled(_, next) => ThenLoop(next)
    case _ => None
  }

  ghost predicate StageSaid(s0: S, steps: seq<Step>, stage: Stage) {
    && (StageAsk(stage).Some? ==> Said(s0, steps, StageAsk(stage).value))
    && (StageLoop(stage).Some? ==> LoopSaid(s0, steps, StageLoop(stage).value))
  }

  ghost predicate LoopSaid(s0: S, steps: seq<Step>, loop: Loop) {
    forall x :: x in loop.ids ==> Said(s0, steps, Left(loop.client, ById(x)))
  }

  ghost predicate RemsSaid(s0: S, steps: seq<Step>, rems: map<Tid, Rem>) {
    forall t :: t in rems ==> Said(s0, steps, Left(rems[t].client, rems[t].target))
  }

  ghost predicate LogSaid(s0: S, steps: seq<Step>, log: seq<Event>) {
    forall e :: e in log ==> Said(s0, steps, e)
  }

  /** What is recorded, and what is about to be, was asked for. */
  ghost predicate AllSaid(s0: S, steps: seq<Step>, s: S) {
    StageSaid(s0, steps, s.stage) && RemsSaid(s0, steps, s.rems) && LogSaid(s0, steps, s.log)
  }

  lemma StillSaid(s0: S, steps: seq<Step>, step: Step, e: Event)
    requires Said(s0, steps, e)
    ensures Said(s0, steps + [step], e)
  {
    var i :| 0 <= i < |steps| && SaidAt(s0, steps, i, e);
    assert (steps + [step])[..i] == steps[..i] && (steps + [step])[i] == steps[i];
    assert SaidAt(s0, steps + [step], i, e);
  }

  lemma JustSaid(s0: S, steps: seq<Step>, step: Step, e: Event)
    requires Enabled(Run(s0, steps), step) && Says(step, e)
    ensures Said(s0, steps + [step], e)
  {
    assert (steps + [step])[..|steps|] == steps;
    assert SaidAt(s0, steps + [step], |steps|, e);
  }

  /** The id that a client is told is not part of its request. */
  lemma SaidWhateverId(s0: S, steps: seq<Step>, client: Client, param: Param, cid: MsgId, x: Id, y: Id)
    requires Said(s0, steps, Joined(client, param, cid, x))
    ensures Said(s0, steps, Joined(client, param, cid, y))
  {
    var i :| 0 <= i < |steps| && SaidAt(s0, steps, i, Joined(client, param, cid, x));
    assert SaidAt(s0, steps, i, Joined(client, param, cid, y));
  }

  lemma SaidGrows(s0: S, steps: seq<Step>, step: Step, s: S)
    requires AllSaid(s0, steps, s)
    ensures AllSaid(s0, steps + [step], s)
  {
    forall e | Said(s0, steps, e)
      ensures Said(s0, steps + [step], e)
    {
      StillSaid(s0, steps, step, e);
    }
  }

  /** The critical section goes on with the same request, or ends. */
  predicate StageGoesOn(stage: Stage, stage': Stage) {
    && (StageAsk(stage').Some? ==> StageAsk(stage') == StageAsk(stage))
    && (StageLoop(stage').Some? ==>
          && StageLoop(stage).Some? && StageLoop(stage').value.client == StageLoop(stage).value.client
          && forall x :: x in StageLoop(stage').value.ids ==> x in StageLoop(stage).value.ids)
  }

  ghost predicate RemsGoOn(rems: map<Tid, Rem>, rems': map<Tid, Rem>) {
    forall t :: t in rems' ==>
      t in rems && rems'[t].client == rems[t].client && rems'[t].target == rems[t].target
  }

  ghost predicate GoesOn(s: S, s': S) {
    StageGoesOn(s.stage, s'.stage) && RemsGoOn(s.rems, s'.rems)
  }

  lemma GoesOnSaid(s0: S, steps: seq<Step>, s: S, s': S)
    requires AllSaid(s0, steps, s) && GoesOn(s, s') && LogSaid(s0, steps, s'.log)
    ensures AllSaid(s0, steps, s')
  {
  }

  lemma AddGoesOn(s: S, step: AddStep)
    requires EnabledAdd(s, step) && !step.AddEnter?
    ensures GoesOn(s, ApplyAdd(s, step))
    ensures ApplyAdd(s, step).log == s.log ||
            (s.stage.AddJoin?
             && ApplyAdd(s, step).log ==
                s.log + [Joined(s.stage.client, s.stage.param, s.stage.cid, s.stage.sid)])
  {
  }

  lemma AddSaid(s0: S, steps: seq<Step>, s: S, step: AddStep)
    requires Run(s0, steps) == s && EnabledAdd(s, step) && AllSaid(s0, steps + [Add(step)], s)
    ensures AllSaid(s0, steps + [Add(step)], ApplyAdd(s, step))
  {
    var s' := ApplyAdd(s, step);
    if step.AddEnter? {
      JustSaid(s0, steps, Add(step), Joined(step.client, step.param, step.cid, NoName));
    } else {
      AddGoesOn(s, step);
      if s'.log != s.log {
        SaidWhateverId(s0, steps + [Add(step)], s.stage.client, s.stage.param, s.stage.cid, NoName, s.stage.sid);
      }
      GoesOnSaid(s0, steps + [Add(step)], s, s');
    }
  }

  lemma TearGoesOn(s: S, step: TearStep)
    requires EnabledTear(s, step)
    ensures GoesOn(s, ApplyTear(s, step)) && ApplyTear(s, step).log == s.log
  {
  }

  lemma NetGoesOn(s: S, step: NetStep)
    requires EnabledNet(s, step)
    ensures GoesOn(s, ApplyNet(s, step)) && ApplyNet(s, step).log == s.log
  {
    NetChanges(s, step);
    if step.HandOver? {
      HandChanges(s, step.c);
    }
  }

  /** A request to unsubscribe comes in. */
  lemma FindSaid(s0: S, steps: seq<Step>, s: S, t: Tid, client: Client, p: Param)
    requires Run(s0, steps) == s && EnabledRem(s, RemFind(t, client, p))
    requires AllSaid(s0, steps + [Rem(RemFind(t, client, p))], s)
    ensures AllSaid(s0, steps + [Rem(RemFind(t, client, p))], ApplyRem(s, RemFind(t, client, p)))
  {
    assert IsEthSubscriptionID(p) <==> |p.text| >= 2 && p.text[0] == '0' && p.text[1] == 'x';
    JustSaid(s0, steps, Rem(RemFind(t, client, p)), Left(client, TargetOf(p)));
  }

  /** So does unsubscribe_all, or a client disconnects. */
  lemma AllEnterSaid(s0: S, steps: seq<Step>, s: S, client: Client, ids: seq<Id>)
    requires Run(s0, steps) == s && EnabledRem(s, AllEnter(client, ids))
    requires AllSaid(s0, steps + [Rem(AllEnter(client, ids))], s)
    ensures AllSaid(s0, steps + [Rem(AllEnter(client, ids))], ApplyRem(s, AllEnter(client, ids)))
  {
    forall x | x in ids
      ensures Said(s0, steps + [Rem(AllEnter(client, ids))], Left(client, ById(x)))
    {
      JustSaid(s0, steps, Rem(AllEnter(client, ids)), Left(client, ById(x)));
    }
  }

  lemma RemGoesOn(s: S, step: RemStep)
    requires EnabledRem(s, step) && !step.RemFind? && !step.AllEnter?
    ensures GoesOn(s, ApplyRem(s, step))
  {
  }

  /** The client that is dropped asked for it. */
  lemma RemLogSaid(s0: S, steps: seq<Step>, s: S, step: RemStep)
    requires EnabledRem(s, step) && !step.RemFind? && !step.AllEnter? && AllSaid(s0, steps, s)
    ensures LogSaid(s0, steps, ApplyRem(s, step).log)
  {
    if step.RemDrop? {
      assert Said(s0, steps, Left(s.rems[step.t].client, s.rems[step.t].target));
    } else if step.AllDrop? {
      assert StageLoop(s.stage) == Some(Loop(s.stage.client, s.stage.ids));
      assert Said(s0, steps, Left(s.stage.client, ById(s.stage.ids[0])));
    }
  }

  lemma RemSaid(s0: S, steps: seq<Step>, s: S, step: RemStep)
    requires Run(s0, steps) == s && EnabledRem(s, step) && AllSaid(s0, steps + [Rem(step)], s)
    ensures AllSaid(s0, steps + [Rem(step)], ApplyRem(s, step))
  {
    if step.RemFind? {
      FindSaid(s0, steps, s, step.t, step.client, step.param);
    } else if step.AllEnter? {
      AllEnterSaid(s0, steps, s, step.client, step.ids);
    } else {
      RemGoesOn(s, step);
      RemLogSaid(s0, steps + [Rem(step)], s, step);
      GoesOnSaid(s0, steps + [Rem(step)], s, ApplyRem(s, step));
    }
  }

  lemma StepSaid(s0: S, steps: seq<Step>, s: S, step: Step)
    requires Run(s0, steps) == s && Enabled(s, step) && AllSaid(s0, steps, s)
    ensures AllSaid(s0, steps + [step], Apply(s, step))
  {
    SaidGrows(s0, steps, step, s);
    match step
    case Add(a) => AddSaid(s0, steps, s, a);
    case Rem(r) => RemSaid(s0, steps, s, r);
    case Tear(t) =>
      TearGoesOn(s, t);
      GoesOnSaid(s0, steps + [step], s, ApplyTear(s, t));
    case Net(n) =>
      NetGoesOn(s, n);
      GoesOnSaid(s0, steps + [step], s, ApplyNet(s, n));
  }

  lemma {:induction false} RunSaid(eth: bool, n: nat, steps: seq<Step>)
    ensures AllSaid(Init(eth, n), steps, Run(Init(eth, n), steps))
    decreases |steps|
  {
    if steps != [] {
      var s0 := Init(eth, n);
      RunSaid(eth, n, Front(steps));
      var s := Run(s0, Front(steps));
      assert Front(steps) + [Last(steps)] == steps;
      if Enabled(s, Last(steps)) {
        StepSaid(s0, Front(steps), s, Last(steps));
      } else {
        SaidGrows(s0, Front(steps), Last(steps), s);
      }
    }
  }

  // ----- the loop of unsubscribe_all

  /** The upstream unsubscribe fails. */
  predicate TearFails(step: Step) {
    step.Tear? && (step.tear.TearMissing? || step.tear.TearSendFail? || step.tear.TearTimeout?)
  }

  lemma TearLoops(s: S, step: TearStep)
    requires EnabledTear(s, step) && StageLoop(s.stage).Some?
    ensures if TearFails(Tear(step)) then ApplyTear(s, step).stage == Free
            else StageLoop(ApplyTear(s, step).stage) == StageLoop(s.stage)
  {
  }

  lemma RemLoops(s: S, step: RemStep)
    requires EnabledRem(s, step) && StageLoop(s.stage).Some? && !step.AllDrop? && !step.AllExit?
    ensures StageLoop(ApplyRem(s, step).stage) == StageLoop(s.stage)
  {
  }

  lemma NetLoops(s: S, step: NetStep)
    requires EnabledNet(s, step) && StageLoop(s.stage).Some?
    ensures StageLoop(ApplyNet(s, step).stage) == StageLoop(s.stage)
  {
    NetChanges(s, step);
    if step.HandOver? {
      HandChanges(s, step.c);
    }
  }

  /** The loop of unsubscribe_all goes on for its client, drops the client from its ids one by one, and ends
      only when it has come to all of them or an upstream unsubscribe fails. */
  lemma LoopEndsOnly(s: S, step: Step)
    requires Enabled(s, step) && StageLoop(s.stage).Some?
    ensures
      var loop, s' := StageLoop(s.stage).value, Apply(s, step);
      if TearFails(step) then s'.stage == Free
      else if step == Rem(AllExit) then loop.ids == [] && s'.stage == Free
      else if step == Rem(AllDrop) then
        && loop.ids != [] && StageLoop(s'.stage) == Some(Loop(loop.client, loop.ids[1..]))
        && !s'.sm.Has(loop.ids[0], loop.client)
      else StageLoop(s'.stage) == Some(loop)
  {
    match step
    case Add(a) => AddGoesOn(s, a);
    case Rem(r) => if !r.AllDrop? && !r.AllExit? { RemLoops(s, r); }
    case Tear(t) => TearLoops(s, t);
    case Net(n) => NetLoops(s, n);
  }
}
