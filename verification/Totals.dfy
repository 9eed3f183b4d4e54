/**
 Totals over a table of threads: how much each entry contributes to a counter,
 and which values the entries hold between them.  Every protocol below changes one
 table entry at a time, so the update lemmas are what its invariants rest on.
 */
module Totals {

  /** The sum of `weight` over all entries. */
  ghost function Sum<T>(table: seq<T>, weight: T -> nat): (total: nat)
  {
    if table == [] then 0 else weight(table[0]) + Sum(table[1..], weight)
  }

  lemma {:induction false} SumUpdate<T>(table: seq<T>, i: nat, entry: T, weight: T -> nat)
    requires i < |table|
    ensures Sum(table[i := entry], weight) == Sum(table, weight) - weight(table[i]) + weight(entry)
  {
    var updated := table[i := entry];
    if i == 0 {
      assert updated[1..] == table[1..];
    } else {
      assert updated[1..] == table[1..][i - 1 := entry];
      SumUpdate(table[1..], i - 1, entry, weight);
    }
  }

  lemma {:induction false} SumZero<T>(table: seq<T>, weight: T -> nat)
    requires forall i | 0 <= i < |table| :: weight(table[i]) == 0
    ensures Sum(table, weight) == 0
  {
    if table != [] {
      SumZero(table[1..], weight);
    }
  }

  lemma {:induction false} SumPointwise<T>(a: seq<T>, b: seq<T>, weight: T -> nat)
    requires |a| == |b|
    requires forall i | 0 <= i < |a| :: weight(a[i]) == weight(b[i])
    ensures Sum(a, weight) == Sum(b, weight)
  {
    if a != [] {
      SumPointwise(a[1..], b[1..], weight);
    }
  }

  lemma {:induction false} SumMonotone<T>(table: seq<T>, light: T -> nat, heavy: T -> nat)
    requires forall i | 0 <= i < |table| :: light(table[i]) <= heavy(table[i])
    ensures Sum(table, light) <= Sum(table, heavy)
  {
    if table != [] {
      SumMonotone(table[1..], light, heavy);
    }
  }

  /** Everything the entries hold, with multiplicity. */
  ghost function Bag<T, U>(table: seq<T>, holds: T -> multiset<U>): (bag: multiset<U>)
  {
    if table == [] then multiset{} else holds(table[0]) + Bag(table[1..], holds)
  }

  lemma {:induction false} BagUpdate<T, U>(table: seq<T>, i: nat, entry: T, holds: T -> multiset<U>)
    requires i < |table|
    ensures Bag(table[i := entry], holds) + holds(table[i]) == Bag(table, holds) + holds(entry)
  {
    var updated := table[i := entry];
    if i == 0 {
      assert updated[1..] == table[1..];
    } else {
      assert updated[1..] == table[1..][i - 1 := entry];
      BagUpdate(table[1..], i - 1, entry, holds);
      calc {
        Bag(updated, holds) + holds(table[i]);
        holds(table[0]) + (Bag(updated[1..], holds) + holds(table[1..][i - 1]));
        holds(table[0]) + (Bag(table[1..], holds) + holds(entry));
        Bag(table, holds) + holds(entry);
      }
    }
  }

  lemma {:induction false} BagEmpty<T, U>(table: seq<T>, holds: T -> multiset<U>)
    requires forall i | 0 <= i < |table| :: holds(table[i]) == multiset{}
    ensures Bag(table, holds) == multiset{}
  {
    if table != [] {
      BagEmpty(table[1..], holds);
    }
  }

  lemma {:induction false} BagPointwise<T, U>(a: seq<T>, b: seq<T>, holds: T -> multiset<U>)
    requires |a| == |b|
    requires forall i | 0 <= i < |a| :: holds(a[i]) == holds(b[i])
    ensures Bag(a, holds) == Bag(b, holds)
  {
    if a != [] {
      BagPointwise(a[1..], b[1..], holds);
    }
  }

  lemma Cancel<U>(a: multiset<U>, b: multiset<U>, common: multiset<U>)
    requires a + common == b + common
    ensures a == b
  {
    forall x: U
      ensures a[x] == b[x]
    {
      assert (a + common)[x] == (b + common)[x];
    }
  }

  /** An update that does not change what the entry holds. */
  lemma BagSame<T, U>(table: seq<T>, i: nat, entry: T, holds: T -> multiset<U>)
    requires i < |table| && holds(table[i]) == holds(entry)
    ensures Bag(table[i := entry], holds) == Bag(table, holds)
  {
    BagUpdate(table, i, entry, holds);
    Cancel(Bag(table[i := entry], holds), Bag(table, holds), holds(entry));
  }

  /** Conservation across one update: if what the entry gave up and what came in equal what
      the entry took on and what went out, then the balance still holds. */
  lemma BagBalance<T, U>(table: seq<T>, i: nat, entry: T, holds: T -> multiset<U>,
                         total: multiset<U>, outside: multiset<U>, cameIn: multiset<U>, wentOut: multiset<U>)
    requires i < |table|
    requires total == outside + Bag(table, holds)
    requires holds(table[i]) + cameIn == holds(entry) + wentOut
    ensures total + cameIn == outside + wentOut + Bag(table[i := entry], holds)
  {
    BagUpdate(table, i, entry, holds);
    var before, after := Bag(table, holds), Bag(table[i := entry], holds);
    var given, taken := holds(table[i]), holds(entry);
    calc {
      total + cameIn + given;
      outside + before + (given + cameIn);
      outside + (before + taken) + wentOut;
      outside + wentOut + after + given;
    }
    Cancel(total + cameIn, outside + wentOut + after, given);
  }
}
