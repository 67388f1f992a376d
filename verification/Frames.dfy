/** What the steps of the network change, and what they leave alone. */
module Frames {
  import opened Messages
  import opened Subscriptions
  import opened Layers
  import opened Machine

  ghost function Maps(s: S): seq<SubMaps> {
    seq(|s.conns|, i requires 0 <= i < |s.conns| => s.conns[i].maps)
  }

  lemma SameMaps(s: S, s': S)
    requires |s'.conns| == |s.conns|
    requires forall c :: 0 <= c < |s.conns| ==> s'.conns[c].maps == s.conns[c].maps
    ensures Maps(s') == Maps(s)
  {
  }

  lemma NewMaps(s: S, s': S, c: int, m: SubMaps)
    requires IsConn(s, c) && |s'.conns| == |s.conns| && s'.conns[c].maps == m
    requires forall i :: 0 <= i < |s.conns| && i != c ==> s'.conns[i].maps == s.conns[i].maps
    ensures Maps(s') == Maps(s)[c := m]
  {
  }

  /** The holder of the mutex has got the reply to its request `x` on connection `c`. */
  predicate Advanced(eth: bool, g: Stage, g': Stage, c: int, x: Id, sid: Id) {
    || (g.AddSent? && g.c == c && g.rid == x && g' == AddGot(g.client, g.param, g.cid, c, x, if eth then sid else x))
    || (g.TearSent? && g.c == c && g.rid == x && g' == TearGot(g.sid, g.param, c, x, g.next))
  }

  /** A message that is handed over moves the holder of the mutex or ends a call. */
  lemma HandChanges(s: S, c: int)
    requires CanHandOver(s, c)
    ensures
      var s' := Hand(s, c);
      var m := s.conns[c].mode;
      && s'.eth == s.eth && s'.sm == s.sm && s'.pool == s.pool && s'.log == s.log && s'.rems == s.rems
      && s'.failed == s.failed && Maps(s') == Maps(s)
      && (s'.stage == s.stage || (m.ch.w.Holder? && Advanced(s.eth, s.stage, s'.stage, c, m.x, m.sid)))
  {
    SameMaps(s, Hand(s, c));
  }

  /** A message that arrives moves the reader or is broadcast. */
  lemma ReceiveChanges(s: S, c: int, x: Id, answered: Option<Call>, body: Msg, sid: Id)
    requires IsConn(s, c)
    ensures
      var s' := Receive(s, c, x, answered, body, sid);
      && s'.eth == s.eth && s'.sm == s.sm && s'.pool == s.pool && s'.log == s.log
      && s'.rems == s.rems && s'.gen == s.gen
      && s'.failed == s.failed && s'.stage == s.stage && s'.calls == s.calls
      && s'.returned == s.returned && Maps(s') == Maps(s)
  {
    SameMaps(s, Receive(s, c, x, answered, body, sid));
  }

  predicate IsArrival(step: NetStep) {
    step.Reply? || step.Notify?
  }

  /** A step of the network leaves table, pool, removals and history alone. */
  ghost predicate TableKept(s: S, s': S) {
    && s'.eth == s.eth && s'.sm == s.sm && s'.pool == s.pool && s'.log == s.log
    && s'.rems == s.rems && s'.failed == s.failed
  }

  lemma ArrivalChanges(s: S, step: NetStep)
    requires EnabledNet(s, step) && IsArrival(step)
    ensures
      var s' := ApplyNet(s, step);
      TableKept(s, s') && s'.stage == s.stage && s'.calls == s.calls && s'.gen == s.gen && Maps(s') == Maps(s)
  {
    match step
    case Reply(c, x, call, body, sid, obeyed) =>
      var a := Answered(s, c, x, call, sid, obeyed);
      SameMaps(s, a);
      ReceiveChanges(a, c, x, Some(call), body, sid);
    case Notify(c, x, body) => ReceiveChanges(s, c, x, None, body, x);
  }

  /** Only an Ethereum reset changes the maps of a connection. */
  lemma NetChanges(s: S, step: NetStep)
    requires EnabledNet(s, step)
    ensures
      var s' := ApplyNet(s, step);
      && TableKept(s, s') && |s'.conns| == |s.conns|
      && (!step.HandOver? ==> s'.stage == s.stage)
      && (step.Reconnect? && s.eth ==> Maps(s') == Maps(s)[step.c := NoSubs])
      && (!(step.Reconnect? && s.eth) ==> Maps(s') == Maps(s))
  {
    if IsArrival(step) {
      ArrivalChanges(s, step);
    } else if step.HandOver? {
      HandChanges(s, step.c);
    } else {
      OtherChanges(s, step);
    }
  }

  lemma OtherChanges(s: S, step: NetStep)
    requires EnabledNet(s, step) && !IsArrival(step) && !step.HandOver?
    ensures
      var s' := ApplyNet(s, step);
      && TableKept(s, s') && |s'.conns| == |s.conns| && s'.stage == s.stage
      && (step.Reconnect? && s.eth ==> Maps(s') == Maps(s)[step.c := NoSubs])
      && (!(step.Reconnect? && s.eth) ==> Maps(s') == Maps(s))
  {
    if step.Reconnect? && s.eth {
      NewMaps(s, ApplyNet(s, step), step.c, NoSubs);
    } else {
      SameMaps(s, ApplyNet(s, step));
    }
  }

  // ----- the kind of connection

  lemma AddKind(s: S, step: AddStep)
    requires EnabledAdd(s, step)
    ensures ApplyAdd(s, step).eth == s.eth && |ApplyAdd(s, step).conns| == |s.conns|
  {
  }

  lemma TearKind(s: S, step: TearStep)
    requires EnabledTear(s, step)
    ensures ApplyTear(s, step).eth == s.eth && |ApplyTear(s, step).conns| == |s.conns|
  {
  }

  /** An Ethereum machine stays one, and so does a Cosmos machine; connections neither come nor go. */
  lemma StepKind(s: S, step: Step)
    requires Enabled(s, step)
    ensures Apply(s, step).eth == s.eth && |Apply(s, step).conns| == |s.conns|
  {
    match step
    case Add(a) => AddKind(s, a);
    case Rem(r) => assert ApplyRem(s, r).eth == s.eth && ApplyRem(s, r).conns == s.conns;
    case Tear(t) => TearKind(s, t);
    case Net(m) => NetChanges(s, m);
  }

  lemma {:induction false} RunKind(s: S, steps: seq<Step>)
    ensures Run(s, steps).eth == s.eth && |Run(s, steps).conns| == |s.conns|
    decreases |steps|
  {
    if steps != [] {
      RunKind(s, Front(steps));
      var r := Run(s, Front(steps));
      if Enabled(r, Last(steps)) {
        StepKind(r, Last(steps));
      }
    }
  }
}
