/** The mutex can always be released, whatever the network does. */
module Progress {
  import opened Subscriptions
  import opened Machine
  import opened Frames
  import opened Registry

  /** Longer than every name of the set. */
  lemma {:induction false} Longest(names: set<Id>) returns (n: nat)
    ensures forall x :: x in names ==> |x.text| <= n
    decreases |names|
  {
    n := 0;
    if x :| x in names {
      var m := Longest(names - {x});
      n := if |x.text| <= m then m else |x.text|;
      assert forall y :: y in names ==> y == x || y in names - {x};
    }
  }

  /** Some id is not drawn. */
  lemma SomeNameIsFree(names: set<Id>) returns (x: Id)
    ensures x !in names
  {
    var n := Longest(names);
    x := Name(seq(n + 1, _ => '0'));
  }

  /** What the holder of the mutex does next when every request that it sends fails. */
  function NextOf(s: S, rid: Id): Step
    requires !s.stage.Free?
  {
    match s.stage
    case AddCall(_, _, _) => Add(AddSendFail(0, rid, true))
    case AddSent(_, _, _, _, _, _) => Add(AddTimeout)
    case AddGot(_, _, _, _, _, _) => Add(AddCommit)
    case AddAck(_, _, _, _, _) => Add(AddPool)
    case AddPooled(_, _, _, _) => Add(AddRegister)
    case AddJoin(_, _, _, _) => Add(AddDone)
    case AllLoop(_, ids) => if ids == [] then Rem(AllExit) else Rem(AllDrop)
    case AllCheck(_, _, _) => Rem(AllTest)
    case TearCall(sid, _) => if sid in s.pool.conn then Tear(TearSendFail(rid, true)) else Tear(TearMissing)
    case TearSent(_, _, _, _, _, _) => Tear(TearTimeout)
    case TearGot(_, _, _, _, _) => Tear(TearCommit)
    case TearAck(_, _) => Tear(TearPool)
    case TearPooled(_, _) => Tear(TearDone)
  }

  /** Subscriptions that the loop over a client's subscriptions still has before it. */
  function Left(stage: Stage): nat {
    match stage
    case AllLoop(_, ids) => |ids|
    case AllCheck(_, _, ids) => |ids|
    case TearCall(_, More(_, ids)) => |ids|
    case TearSent(_, _, _, _, _, More(_, ids)) => |ids|
    case TearGot(_, _, _, _, More(_, ids)) => |ids|
    case TearAck(_, More(_, ids)) => |ids|
    case TearPooled(_, More(_, ids)) => |ids|
    case _ => 0
  }

  /** How far the program counter is from the end of the section, or of the loop's turn. */
  function Distance(stage: Stage): nat {
    match stage
    case Free => 0
    case AllLoop(_, _) => 1
    case TearPooled(_, _) => 2
    case TearAck(_, _) => 3
    case TearGot(_, _, _, _, _) => 4
    case TearSent(_, _, _, _, _, _) => 5
    case TearCall(_, _) => 6
    case AllCheck(_, _, _) => 7
    case AddJoin(_, _, _, _) => 1
    case AddPooled(_, _, _, _) => 2
    case AddAck(_, _, _, _, _) => 3
    case AddGot(_, _, _, _, _, _) => 4
    case AddSent(_, _, _, _, _, _) => 5
    case AddCall(_, _, _) => 6
  }

  /** A subscribe needs a connection; the pool's round robin over none divides by zero. */
  predicate Stuck(s: S) {
    s.stage.AddCall? && s.conns == []
  }

  lemma NextIsEnabled(s: S, rid: Id)
    requires Reg(s) && !s.stage.Free? && !Stuck(s) && rid !in s.gen
    ensures Enabled(s, NextOf(s, rid)) && Fresh(s, NextOf(s, rid))
  {
    if s.stage.AddCall? {
      NeverSubscribedTwice(s);
      assert !EnabledAdd(s, AddExists(0)) && !EnabledAdd(s, AddPoolHit);
    }
  }

  predicate Nearer(g: Stage, g': Stage) {
    && !g'.AddCall?
    && (g'.Free? || Left(g') < Left(g) || (Left(g') == Left(g) && Distance(g') < Distance(g)))
  }

  lemma NextGoesOn(s: S, rid: Id)
    requires !s.stage.Free? && Enabled(s, NextOf(s, rid))
    ensures Nearer(s.stage, Apply(s, NextOf(s, rid)).stage)
  {
    match NextOf(s, rid)
    case Add(a) => AddGoesOn(s, a);
    case Rem(r) => LoopGoesOn(s, r);
    case Tear(t) => TearGoesOn(s, t);
  }

  lemma AddGoesOn(s: S, step: AddStep)
    requires EnabledAdd(s, step) && !step.AddEnter? && !step.AddSend?
    ensures Nearer(s.stage, ApplyAdd(s, step).stage)
  {
  }

  lemma LoopGoesOn(s: S, step: RemStep)
    requires EnabledRem(s, step) && (step.AllDrop? || step.AllTest? || step.AllExit?)
    ensures Nearer(s.stage, ApplyRem(s, step).stage)
  {
  }

  lemma TearGoesOn(s: S, step: TearStep)
    requires EnabledTear(s, step)
    ensures Nearer(s.stage, ApplyTear(s, step).stage)
  {
  }

  /** One step of the holder brings it nearer to the end. */
  lemma OneStep(s: S) returns (next: Step, s': S)
    requires Reg(s) && !s.stage.Free? && !Stuck(s)
    ensures Reg(s') && Nearer(s.stage, s'.stage) && !next.Net?
    ensures forall rest :: Run(s, [next] + rest) == Run(s', rest)
  {
    var rid := SomeNameIsFree(s.gen);
    next := NextOf(s, rid);
    NextIsEnabled(s, rid);
    NextGoesOn(s, rid);
    StepReg(s, next);
    s' := Apply(s, next);
    forall rest
      ensures Run(s, [next] + rest) == Run(s', rest)
    {
      RunFrom(s, next, rest);
    }
  }

  lemma RunFrom(s: S, step: Step, rest: seq<Step>)
    requires Enabled(s, step)
    ensures Run(s, [step] + rest) == Run(Apply(s, step), rest)
  {
    Chain(s, [], s, step, Apply(s, step));
    assert [] + [step] == [step];
    RunConcat(s, [step], rest);
  }

  /** From every consistent state the holder of the mutex can come to the end of its section, even if no
      message ever arrives, unless it wants to subscribe and there is no connection. */
  lemma {:induction false} CanRelease(s: S) returns (steps: seq<Step>)
    requires Reg(s) && !Stuck(s)
    ensures Run(s, steps).stage.Free? && forall i :: 0 <= i < |steps| ==> !steps[i].Net?
    decreases if s.stage.Free? then 0 else 1, Left(s.stage), Distance(s.stage)
  {
    steps := [];
    if !s.stage.Free? {
      var next, s' := OneStep(s);
      var rest := CanRelease(s');
      steps := [next] + rest;
    }
  }

  lemma {:induction false} StaysStuck(s: S, steps: seq<Step>)
    requires Reg(s) && Stuck(s)
    ensures Reg(Run(s, steps)) && Stuck(Run(s, steps))
    decreases |steps|
  {
    if steps != [] {
      StaysStuck(s, Front(steps));
      var r := Run(s, Front(steps));
      if Enabled(r, Last(steps)) {
        StepReg(r, Last(steps));
        StepStaysStuck(r, Last(steps));
      }
    }
  }

  lemma StepStaysStuck(s: S, step: Step)
    requires Reg(s) && Stuck(s) && Enabled(s, step)
    ensures Stuck(Apply(s, step))
  {
    NeverSubscribedTwice(s);
    StepKind(s, step);
    match step
    case Net(n) => NetChanges(s, n);
    case _ =>
  }

  /** The mutex can be released in some continuation exactly when a subscribe, if one holds it, has a
      connection to go over. */
  lemma MutexCanBeReleasedIff(eth: bool, n: nat, steps: seq<Step>)
    requires FreshRun(Init(eth, n), steps)
    ensures
      var s := Run(Init(eth, n), steps);
      (exists more :: Run(s, more).stage.Free?) <==> !(s.stage.AddCall? && n == 0)
  {
    var s := Run(Init(eth, n), steps);
    InitReg(eth, n);
    RunReg(Init(eth, n), steps);
    RunKind(Init(eth, n), steps);
    if Stuck(s) {
      forall more
        ensures !Run(s, more).stage.Free?
      {
        StaysStuck(s, more);
      }
    } else {
      var more := CanRelease(s);
    }
  }
}
