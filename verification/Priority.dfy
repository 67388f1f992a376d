/** The order of the rules and what it decides.  `sort.Slice` may put rules of equal priority in any
    order, so every statement is about all sorted permutations of the configured list. */
module Priority {
  import opened Messages
  import opened Rules

  ghost predicate Sorted(rules: seq<Rule>) {
    forall i, j :: 0 <= i < j < |rules| ==> rules[i].priority <= rules[j].priority
  }

  /** What `sort.Slice` may make of `rules`. */
  ghost predicate SortedPermutation(rules: seq<Rule>, sorted: seq<Rule>) {
    Sorted(sorted) && multiset(sorted) == multiset(rules)
  }

  predicate Decisive(rule: Rule) {
    rule.action.Allow? || rule.action.Deny?
  }

  /** The first rule that matches. */
  function FirstHit(rules: seq<Rule>, hit: Rule -> bool): Option<Rule> {
    if rules == [] then None
    else if hit(rules[0]) then Some(rules[0])
    else FirstHit(rules[1..], hit)
  }

  /** The first match depends on what matches alone. */
  lemma {:induction false} SameHits(rules: seq<Rule>, hit: Rule -> bool, other: Rule -> bool)
    requires forall r :: hit(r) == other(r)
    ensures FirstHit(rules, hit) == FirstHit(rules, other)
  {
    if rules != [] {
      SameHits(rules[1..], hit, other);
    }
  }

  /** The first rule that matches and whose action is known. */
  function FirstDecisive(rules: seq<Rule>, hit: Rule -> bool): Option<Rule> {
    FirstHit(rules, (r: Rule) => hit(r) && Decisive(r))
  }

  lemma SameDecisive(rules: seq<Rule>, hit: Rule -> bool, other: Rule -> bool)
    requires forall r :: hit(r) == other(r)
    ensures FirstDecisive(rules, hit) == FirstDecisive(rules, other)
  {
    SameHits(rules, (r: Rule) => hit(r) && Decisive(r), (r: Rule) => other(r) && Decisive(r));
  }

  /** Whether the request goes through, given the rule that decides and the default action. */
  predicate Permits(decider: Option<Rule>, default: Action) {
    if decider.Some? && Decisive(decider.value) then decider.value.action.Allow? else default.Allow?
  }

  /** The batch loop stops at the first match, whatever its action. */
  predicate BatchPermits(rules: seq<Rule>, default: Action, hit: Rule -> bool) {
    Permits(FirstHit(rules, hit), default)
  }

  /** The other two loops pass over a match whose action is unknown. */
  predicate LoopPermits(rules: seq<Rule>, default: Action, hit: Rule -> bool) {
    Permits(FirstDecisive(rules, hit), default)
  }

  lemma {:induction false} FirstHitAt(rules: seq<Rule>, hit: Rule -> bool) returns (i: nat)
    ensures FirstHit(rules, hit).None? <==> (forall j :: 0 <= j < |rules| ==> !hit(rules[j]))
    ensures FirstHit(rules, hit).Some? ==>
      && i < |rules| && FirstHit(rules, hit) == Some(rules[i])
      && hit(rules[i]) && (forall j :: 0 <= j < i ==> !hit(rules[j]))
  {
    if rules == [] || hit(rules[0]) {
      i := 0;
    } else {
      var k := FirstHitAt(rules[1..], hit);
      i := k + 1;
      assert forall j :: 0 < j < |rules| ==> rules[j] == rules[1..][j - 1];
    }
  }

  /** The first match in a sorted list is a match of least priority; there is none only if nothing matches. */
  lemma {:induction false} FirstHitIsLeast(rules: seq<Rule>, hit: Rule -> bool)
    requires Sorted(rules)
    ensures FirstHit(rules, hit).None? <==> (forall r :: r in rules ==> !hit(r))
    ensures FirstHit(rules, hit).Some? ==>
      var first := FirstHit(rules, hit).value;
      first in rules && hit(first) && (forall r :: r in rules && hit(r) ==> first.priority <= r.priority)
  {
    var i := FirstHitAt(rules, hit);
  }

  /** `r` matches and nothing that matches comes before it in priority. */
  ghost predicate LeastHit(rules: seq<Rule>, hit: Rule -> bool, r: Rule) {
    r in rules && hit(r) && (forall q :: q in rules && hit(q) ==> r.priority <= q.priority)
  }

  /** All matching rules of least priority say the same. */
  ghost predicate TiesAgree(rules: seq<Rule>, hit: Rule -> bool) {
    forall q, r :: LeastHit(rules, hit, q) && LeastHit(rules, hit, r) ==> q.action == r.action
  }

  function ActionOf(decider: Option<Rule>): Option<Action> {
    if decider.Some? then Some(decider.value.action) else None
  }

  lemma SameMembers(rules: seq<Rule>, other: seq<Rule>)
    requires multiset(rules) == multiset(other)
    ensures forall r :: r in rules <==> r in other
  {
    forall r
      ensures r in rules <==> r in other
    {
      assert r in multiset(rules) <==> r in multiset(other);
    }
  }

  /** The decision does not depend on how ties are sorted exactly when the tied rules agree. */
  lemma DecisionIsOrderFreeIff(rules: seq<Rule>, sorted: seq<Rule>, hit: Rule -> bool)
    requires SortedPermutation(rules, sorted)
    ensures (forall other :: SortedPermutation(rules, other) ==>
               ActionOf(FirstHit(other, hit)) == ActionOf(FirstHit(sorted, hit)))
            <==> TiesAgree(rules, hit)
  {
    FirstHitIsLeast(sorted, hit);
    SameMembers(rules, sorted);
    if TiesAgree(rules, hit) {
      forall other | SortedPermutation(rules, other)
        ensures ActionOf(FirstHit(other, hit)) == ActionOf(FirstHit(sorted, hit))
      {
        FirstHitIsLeast(other, hit);
        SameMembers(rules, other);
        if FirstHit(sorted, hit).Some? {
          assert LeastHit(rules, hit, FirstHit(sorted, hit).value);
          assert LeastHit(rules, hit, FirstHit(other, hit).value);
        }
      }
    } else {
      var q, r :| LeastHit(rules, hit, q) && LeastHit(rules, hit, r) && q.action != r.action;
      var first := FirstHit(sorted, hit).value;
      assert LeastHit(rules, hit, first);
      var rival := if first.action == q.action then r else q;
      assert LeastHit(rules, hit, rival) && rival in sorted;
      var other := Promoted(sorted, hit, rival);
      assert SortedPermutation(rules, other);
    }
  }

  /** A matching rule of least priority can be sorted before every other match. */
  lemma Promoted(sorted: seq<Rule>, hit: Rule -> bool, rival: Rule) returns (other: seq<Rule>)
    requires Sorted(sorted) && LeastHit(sorted, hit, rival)
    ensures Sorted(other) && multiset(other) == multiset(sorted) && FirstHit(other, hit) == Some(rival)
  {
    var i := FirstHitAt(sorted, hit);
    FirstHitIsLeast(sorted, hit);
    var j :| 0 <= j < |sorted| && sorted[j] == rival;
    assert i <= j;
    other := sorted[..i] + [sorted[j]] + sorted[i..j] + sorted[j + 1..];
    MovedIsSorted(sorted, i, j, other);
    MovedIsPermuted(sorted, i, j);
    FirstHitIs(other, hit, i);
  }

  lemma MovedIsPermuted(xs: seq<Rule>, i: nat, j: nat)
    requires i <= j < |xs|
    ensures multiset(xs[..i] + [xs[j]] + xs[i..j] + xs[j + 1..]) == multiset(xs)
  {
    assert xs == xs[..i] + xs[i..j] + [xs[j]] + xs[j + 1..];
  }

  /** The first match, from a scan that stopped at it or found none. */
  lemma FirstHitIs(rules: seq<Rule>, hit: Rule -> bool, i: nat)
    requires i <= |rules| && (forall n :: 0 <= n < i ==> !hit(rules[n]))
    requires i < |rules| ==> hit(rules[i])
    ensures FirstHit(rules, hit) == if i < |rules| then Some(rules[i]) else None
  {
    var k := FirstHitAt(rules, hit);
  }

  /** The first decisive match, from a scan that stopped at it or found none. */
  lemma FirstDecisiveIs(rules: seq<Rule>, hit: Rule -> bool, i: nat)
    requires i <= |rules| && (forall n :: 0 <= n < i ==> !(hit(rules[n]) && Decisive(rules[n])))
    requires i < |rules| ==> hit(rules[i]) && Decisive(rules[i])
    ensures FirstDecisive(rules, hit) == if i < |rules| then Some(rules[i]) else None
  {
    var k := FirstHitAt(rules, (r: Rule) => hit(r) && Decisive(r));
  }

  lemma MovedIsSorted(sorted: seq<Rule>, i: nat, j: nat, other: seq<Rule>)
    requires Sorted(sorted) && i <= j < |sorted| && sorted[i].priority == sorted[j].priority
    requires other == sorted[..i] + [sorted[j]] + sorted[i..j] + sorted[j + 1..]
    ensures Sorted(other)
  {
  }

  /** Batch and the other two loops agree for every default action exactly when the first match is
      decisive, or nothing decisive matches. */
  lemma LoopsAgreeIff(rules: seq<Rule>, hit: Rule -> bool)
    ensures (forall default :: BatchPermits(rules, default, hit) == LoopPermits(rules, default, hit))
            <==> (FirstHit(rules, hit).Some? ==> Decisive(FirstHit(rules, hit).value))
                 || FirstDecisive(rules, hit).None?
  {
    var i := FirstHitAt(rules, hit);
    var j := FirstHitAt(rules, (r: Rule) => hit(r) && Decisive(r));
    var d := FirstDecisive(rules, hit);
    if FirstHit(rules, hit).Some? && !Decisive(FirstHit(rules, hit).value) && d.Some? {
      var default := if d.value.action.Allow? then Deny else Allow;
      assert BatchPermits(rules, default, hit) != LoopPermits(rules, default, hit);
    }
  }

  /** With allow and deny only, the three loops decide alike. */
  lemma LoopsAgree(rules: seq<Rule>, default: Action, hit: Rule -> bool)
    requires forall r :: r in rules ==> Decisive(r)
    ensures BatchPermits(rules, default, hit) == LoopPermits(rules, default, hit)
    ensures FirstHit(rules, hit) == FirstDecisive(rules, hit)
  {
    var i := FirstHitAt(rules, hit);
    var j := FirstHitAt(rules, (r: Rule) => hit(r) && Decisive(r));
    assert forall n :: 0 <= n < |rules| ==> Decisive(rules[n]);
  }

  // ----- the priority that is compared

  /** The documented priority of a rule: 1000 when none was given. */
  function Documented(rule: Rule): int {
    if rule.priority == 0 then 1000 else rule.priority
  }

  ghost predicate SortedAsDocumented(rules: seq<Rule>) {
    forall i, j :: 0 <= i < j < |rules| ==> Documented(rules[i]) <= Documented(rules[j])
  }

  /** Rules are sorted before the default priority is filled in.  The result is in the documented
      order exactly when no rule without a priority meets one whose priority lies between 0 and 1000. */
  lemma DocumentedOrderIff(sorted: seq<Rule>)
    requires Sorted(sorted)
    ensures SortedAsDocumented(sorted) <==>
            !(exists a, b :: a in sorted && b in sorted && a.priority == 0 && 0 < b.priority < 1000)
  {
  }

  /** A deny rule without a priority overrules an allow rule of priority 500, which the documented
      order would put first. */
  lemma UnsetPriorityGoesFirst(cache: Option<RuleCache>)
    ensures
      var catchAll := Rule(0, Deny, [], VNull, cache);
      var status := Rule(500, Allow, ["status"], VNull, cache);
      && SortedPermutation([status, catchAll], [catchAll, status])
      && !BatchPermits([catchAll, status], Deny, r => true)
      && SortedAsDocumented([status, catchAll])
      && BatchPermits([status, catchAll], Deny, r => true)
  {
    var catchAll := Rule(0, Deny, [], VNull, cache);
    var status := Rule(500, Allow, ["status"], VNull, cache);
    assert multiset([status, catchAll]) == multiset([catchAll, status]);
    assert [catchAll, status][0] == catchAll && [status, catchAll][0] == status;
  }
}
