/** No subscription is forgotten and none is torn down under a client, in any schedule at all. */
module Leaks {
  import opened Subscriptions
  import opened Machine
  import opened Frames

  /** The upstream unsubscribe is decided on, and the subscription's entry is still there. */
  predicate InTear(stage: Stage) {
    stage.TearCall? || stage.TearSent? || stage.TearGot? || stage.TearAck? || stage.TearPooled?
  }

  /** The subscription is in the hands of the critical section. */
  predicate InSection(stage: Stage, x: Id) {
    (stage.AddJoin? || stage.AllCheck? || InTear(stage)) && stage.sid == x
  }

  /** Some goroutine has dropped its client from `x` and will look whether `x` is empty. */
  ghost predicate BetweenParts(rems: map<Tid, Rem>, x: Id) {
    exists t :: t in rems && rems[t].Dropped? && rems[t].sid == x
  }

  ghost predicate NoLeak(sm: Table, rems: map<Tid, Rem>, failed: set<Id>, stage: Stage) {
    && failed <= sm.idToParam.Keys
    && (forall x :: x in sm.idToParam && sm.Empty(x) ==>
          x in failed || BetweenParts(rems, x) || InSection(stage, x))
  }

  predicate TearsEmpty(sm: Table, stage: Stage) {
    InTear(stage) ==> sm.Empty(stage.sid)
  }

  ghost predicate Tidy(s: S) {
    NoLeak(s.sm, s.rems, s.failed, s.stage) && TearsEmpty(s.sm, s.stage)
  }

  /** The table stays, and what leaves the critical section is followed, recorded as failed or gone. */
  lemma TidyKept(s: S, s': S)
    requires Tidy(s) && s'.sm == s.sm && TearsEmpty(s.sm, s'.stage)
    requires s.failed <= s'.failed <= s.sm.idToParam.Keys
    requires forall t :: t in s.rems && s.rems[t].Dropped? ==>
               || (t in s'.rems && s'.rems[t] == s.rems[t])
               || InSection(s'.stage, s.rems[t].sid) || !s.sm.Empty(s.rems[t].sid)
    requires forall x :: InSection(s.stage, x) ==>
               InSection(s'.stage, x) || !s.sm.Empty(x) || x in s'.failed || x !in s.sm.idToParam
    ensures Tidy(s')
  {
  }

  lemma RegisterTidy(s: S)
    requires Tidy(s) && s.stage.AddPooled?
    ensures Tidy(RegisterAdd(s))
  {
  }

  lemma JoinTidy(s: S)
    requires Tidy(s) && s.stage.AddJoin? && s.stage.sid in s.sm.clients
    ensures Tidy(FinishAdd(s))
  {
    var s' := FinishAdd(s);
    assert s.stage.client in s'.sm.clients[s.stage.sid];
    forall x | x in s'.sm.idToParam && s'.sm.Empty(x)
      ensures x in s'.failed || BetweenParts(s'.rems, x)
    {
      assert s.sm.Empty(x);
    }
  }

  lemma AddTidy(s: S, step: AddStep)
    requires Tidy(s) && EnabledAdd(s, step)
    ensures Tidy(ApplyAdd(s, step))
  {
    match step
    case AddRegister => RegisterTidy(s);
    case AddDone => JoinTidy(s);
    case _ => TidyKept(s, ApplyAdd(s, step));
  }

  /** A client is dropped, and somebody will look whether it was the last. */
  lemma UnfollowTidy(s: S, sid: Id, client: Client, target: Target, rems': map<Tid, Rem>, stage': Stage)
    requires Tidy(s) && (InTear(stage') ==> stage' == s.stage)
    requires forall x :: InSection(s.stage, x) ==> InSection(stage', x)
    requires forall x :: BetweenParts(s.rems, x) ==> BetweenParts(rems', x)
    requires BetweenParts(rems', sid) || InSection(stage', sid)
    ensures Tidy(Unfollow(s, sid, client, target).(rems := rems', stage := stage'))
  {
    var sm' := Unfollow(s, sid, client, target).sm;
    assert forall x :: s.sm.Empty(x) ==> sm'.Empty(x);
  }

  lemma DropRemTidy(s: S, t: Tid)
    requires Tidy(s) && t in s.rems && s.rems[t].Checked?
    ensures Tidy(DropRem(s, t))
  {
    var r := s.rems[t];
    var rems' := s.rems[t := Dropped(r.client, r.target, r.sid)];
    assert rems'[t].sid == r.sid;
    forall x | BetweenParts(s.rems, x)
      ensures BetweenParts(rems', x)
    {
      var u :| u in s.rems && s.rems[u].Dropped? && s.rems[u].sid == x;
      assert rems'[u] == s.rems[u];
    }
    UnfollowTidy(s, r.sid, r.client, r.target, rems', s.stage);
  }

  lemma DropAllTidy(s: S)
    requires Tidy(s) && s.stage.AllLoop? && s.stage.ids != []
    ensures Tidy(DropAll(s))
  {
    var s' := DropAll(s);
    UnfollowTidy(s, s.stage.ids[0], s.stage.client, ById(s.stage.ids[0]), s.rems, s'.stage);
  }

  lemma RemTidy(s: S, step: RemStep)
    requires Tidy(s) && EnabledRem(s, step)
    ensures Tidy(ApplyRem(s, step))
  {
    match step
    case RemDrop(t) => DropRemTidy(s, t);
    case AllDrop => DropAllTidy(s);
    case _ => TidyKept(s, ApplyRem(s, step));
  }

  lemma FinishTearTidy(s: S)
    requires Tidy(s) && s.stage.TearPooled?
    ensures Tidy(FinishTear(s))
  {
  }

  lemma TearTidy(s: S, step: TearStep)
    requires Tidy(s) && EnabledTear(s, step)
    ensures Tidy(ApplyTear(s, step))
  {
    if step.TearDone? {
      FinishTearTidy(s);
    } else {
      TidyKept(s, ApplyTear(s, step));
    }
  }

  lemma NetTidy(s: S, step: NetStep)
    requires Tidy(s) && EnabledNet(s, step)
    ensures Tidy(ApplyNet(s, step))
  {
    NetChanges(s, step);
    if step.HandOver? {
      HandChanges(s, step.c);
    }
    TidyKept(s, ApplyNet(s, step));
  }

  /** Every step of every schedule keeps: a registered subscription that nobody follows is about to be
      looked at or has failed, and nobody follows one that is being torn down. */
  lemma StepTidy(s: S, step: Step)
    requires Tidy(s) && Enabled(s, step)
    ensures Tidy(Apply(s, step))
  {
    match step
    case Add(a) => AddTidy(s, a);
    case Rem(r) => RemTidy(s, r);
    case Tear(t) => TearTidy(s, t);
    case Net(n) => NetTidy(s, n);
  }

  /** A subscription is recorded as failed only by an upstream unsubscribe of it that fails. */
  lemma FailsOnlyUpstream(s: S, step: Step, x: Id)
    requires Enabled(s, step) && x in Apply(s, step).failed && x !in s.failed
    ensures step.Tear? && (step.tear.TearMissing? || step.tear.TearSendFail? || step.tear.TearTimeout?)
    ensures s.stage.sid == x
  {
    match step
    case Add(a) => AddFailsNothing(s, a);
    case Rem(r) => RemFailsNothing(s, r);
    case Tear(t) => TearFails(s, t);
    case Net(n) => NetChanges(s, n);
  }

  lemma AddFailsNothing(s: S, step: AddStep)
    requires EnabledAdd(s, step)
    ensures ApplyAdd(s, step).failed == s.failed
  {
  }

  lemma RemFailsNothing(s: S, step: RemStep)
    requires EnabledRem(s, step)
    ensures ApplyRem(s, step).failed == s.failed
  {
  }

  lemma TearFails(s: S, step: TearStep)
    requires EnabledTear(s, step)
    ensures
      var s' := ApplyTear(s, step);
      if step.TearMissing? || step.TearSendFail? || step.TearTimeout?
      then s'.failed <= s.failed + {s.stage.sid} else s'.failed <= s.failed
  {
  }

  lemma {:induction false} RunTidy(s: S, steps: seq<Step>)
    requires Tidy(s)
    ensures Tidy(Run(s, steps))
    decreases |steps|
  {
    if steps != [] {
      RunTidy(s, Front(steps));
      var r := Run(s, Front(steps));
      if Enabled(r, Last(steps)) {
        StepTidy(r, Last(steps));
      }
    }
  }
}
