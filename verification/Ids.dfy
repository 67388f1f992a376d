/** Decimal printing, and the generator of unique ids shared by all connections of a pool. */
module Ids {

  const MAX_INT32: nat := 0x7fff_ffff

  const DIGITS: string := "0123456789"

  function Itoa(n: nat): string {
    if n < 10 then [DIGITS[n]] else Itoa(n / 10) + [DIGITS[n % 10]]
  }

  function DigitOf(c: char): int {
    if '0' <= c <= '9' then c as int - '0' as int else 0
  }

  function Atoi(s: string): int {
    if s == [] then 0 else 10 * Atoi(s[..|s| - 1]) + DigitOf(s[|s| - 1])
  }

  /** Parsing undoes printing. */
  lemma {:induction false} AtoiItoa(n: nat)
    ensures Atoi(Itoa(n)) == n
  {
    var d := n % 10;
    assert DigitOf(DIGITS[d]) == d;
    if n < 10 {
      assert Itoa(n)[..0] == [];
    } else {
      AtoiItoa(n / 10);
      assert Itoa(n)[..|Itoa(n)| - 1] == Itoa(n / 10);
    }
  }

  lemma ItoaInjective(m: nat, n: nat)
    ensures Itoa(m) == Itoa(n) ==> m == n
  {
    AtoiItoa(m);
    AtoiItoa(n);
  }

  /** The first `n` candidates. */
  ghost function Candidates(n: nat): set<string> {
    if n == 0 then {} else Candidates(n - 1) + {Itoa(n - 1)}
  }

  lemma {:induction false} CandidateIff(k: nat, n: nat)
    ensures Itoa(k) in Candidates(n) <==> k < n
  {
    if n > 0 {
      CandidateIff(k, n - 1);
      ItoaInjective(k, n - 1);
    }
  }

  lemma {:induction false} CandidatesDiffer(n: nat)
    ensures |Candidates(n)| == n
  {
    if n > 0 {
      CandidatesDiffer(n - 1);
      CandidateIff(n - 1, n - 1);
    }
  }

  lemma {:induction false} AllLive(live: set<string>, n: nat)
    requires forall k :: 0 <= k < n ==> Itoa(k) in live
    ensures Candidates(n) <= live
  {
    if n > 0 {
      AllLive(live, n - 1);
    }
  }

  /** While fewer than `n` ids are live, one of the first `n` candidates is not. */
  lemma SomeCandidateIsFree(live: set<string>, n: nat)
    requires |live| < n
    ensures exists k :: 0 <= k < n && Itoa(k) !in live
  {
    CandidatesDiffer(n);
    if forall k :: 0 <= k < n ==> Itoa(k) in live {
      AllLive(live, n);
      SubsetIsSmaller(Candidates(n), live);
    }
  }

  /** Of `n` live candidates none is free: the bound is exact. */
  lemma NoCandidateIsFree(n: nat)
    ensures |Candidates(n)| == n
    ensures forall k :: 0 <= k < n ==> Itoa(k) in Candidates(n)
  {
    CandidatesDiffer(n);
    forall k | 0 <= k < n
      ensures Itoa(k) in Candidates(n)
    {
      CandidateIff(k, n);
    }
  }

  lemma {:induction false} SubsetIsSmaller<T>(a: set<T>, b: set<T>)
    requires a <= b
    ensures |a| <= |b|
  {
    if a != {} {
      var x :| x in a;
      SubsetIsSmaller(a - {x}, b - {x});
    }
  }

  /** A source of random numbers that sooner or later yields every value it can. */
  ghost predicate Fair(rand: nat -> int) {
    && (forall i: nat :: 0 <= rand(i) < MAX_INT32)
    && (forall v :: 0 <= v < MAX_INT32 ==> Yields(rand, v))
  }

  ghost predicate Yields(rand: nat -> int, v: int) {
    exists i: nat :: rand(i) == v
  }

  class UniqueID {
    var generated: map<string, bool>

    /** The ids that are marked generated and not released. */
    ghost function Live(): set<string>
      reads this
    {
      set x | x in generated && generated[x]
    }

    constructor ()
      ensures Live() == {}
    {
      generated := map[];
    }

    /** Draws until a candidate is not live.  Load and store are taken as one step. */
    method ID(rand: nat -> int) returns (id: string)
      requires Fair(rand) && |Live()| < MAX_INT32
      modifies this
      ensures id !in old(Live()) && Live() == old(Live()) + {id}
      ensures exists k: nat :: id == Itoa(rand(k)) && (forall j: nat :: j < k ==> Itoa(rand(j)) in old(Live()))
    {
      SomeCandidateIsFree(Live(), MAX_INT32);
      ghost var v :| 0 <= v < MAX_INT32 && Itoa(v) !in Live();
      assert Yields(rand, v);
      ghost var bound: nat :| rand(bound) == v;
      var i: nat := 0;
      while true
        invariant i <= bound
        invariant generated == old(generated)
        invariant forall j: nat :: j < i ==> Itoa(rand(j)) in Live()
        decreases bound - i
      {
        id := Itoa(rand(i));
        if id !in generated || !generated[id] {
          generated := generated[id := true];
          assert Live() == old(Live()) + {id};
          return;
        }
        i := i + 1;
      }
    }

    method Release(id: string)
      modifies this
      ensures Live() == old(Live()) - {id}
    {
      generated := generated[id := false];
    }
  }
}
